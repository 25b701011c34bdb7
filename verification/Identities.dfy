/** Giving a re-reported claim the identity its earlier wording was published under. */
module Identities {
  import opened Orders
  import opened Sequences
  import opened Diffs
  import opened Findings
  import Rereview

  datatype Published = Published(
    fingerprint: Label, file: string, category: Label, lineStart: int, lineEnd: int, contextHash: Label)

  // What a finding of this run claims, and where.
  datatype Site = Site(file: string, category: Label, lineStart: int, lineEnd: int)

  // A finding of this run; only its fingerprint is ever rewritten.
  class Claim {
    var fingerprint: Label
    const site: Site

    constructor (fingerprint: Label, site: Site)
      ensures this.fingerprint == fingerprint && this.site == site
    {
      this.fingerprint, this.site := fingerprint, site;
    }
  }

  // The head's readable files, the snippet digest, and the diff between the two heads.
  datatype Head = Head(files: map<string, seq<string>>, digest: seq<string> -> Label, delta: seq<ChangedFile>)

  datatype Span = Span(path: string, start: int, end: int)

  // ---- The reported snippet, found again by its digest -----------------------------

  predicate SnippetAt(lines: seq<string>, offset: nat, length: nat, hash: Label, digest: seq<string> -> Label) {
    offset + length <= |lines| && digest(lines[offset..offset + length]) == hash
  }

  function FirstSnippet(lines: seq<string>, from: nat, length: nat, hash: Label,
      digest: seq<string> -> Label): (r: Option<nat>)
    ensures r.Some? ==> from <= r.value && SnippetAt(lines, r.value, length, hash, digest)
    ensures forall o | from <= o && (r.Some? ==> o < r.value) :: !SnippetAt(lines, o, length, hash, digest)
    decreases |lines| - from
  {
    if from + length > |lines| then None
    else if SnippetAt(lines, from, length, hash, digest) then Some(from)
    else FirstSnippet(lines, from + 1, length, hash, digest)
  }

  datatype Reanchored = Fixed | InPlace(line: int) | Moved(line: int) | Invalidated

  function ReanchorOf(was: Published, head: Head): Reanchored
    requires was.lineStart <= was.lineEnd
  {
    if was.file !in head.files then Fixed
    else
      var found := FirstSnippet(head.files[was.file], 0, was.lineEnd - was.lineStart + 1, was.contextHash, head.digest);
      match found
      case None => Invalidated
      case Some(offset) => if offset + 1 == was.lineStart then InPlace(offset + 1) else Moved(offset + 1)
  }

  method Reanchor(was: Published, head: Head) returns (result: Reanchored)
    requires was.lineStart <= was.lineEnd
    ensures result == ReanchorOf(was, head)
  {
    if was.file !in head.files {
      return Fixed;
    }
    var lines := head.files[was.file];
    var length := was.lineEnd - was.lineStart + 1;
    var offset := 0;
    while offset + length <= |lines|
      invariant FirstSnippet(lines, 0, length, was.contextHash, head.digest)
             == FirstSnippet(lines, offset, length, was.contextHash, head.digest)
    {
      if head.digest(lines[offset..offset + length]) == was.contextHash {
        return if offset + 1 == was.lineStart then InPlace(offset + 1) else Moved(offset + 1);
      }
      offset := offset + 1;
    }
    return Invalidated;
  }

  // ---- Where an earlier finding is now ------------------------------------------------

  function OldPath(file: ChangedFile): string {
    if file.oldPath.Some? && file.oldPath.value != "" then file.oldPath.value else file.path
  }

  // Later entries of the delta override earlier ones of the same old path.
  function ChangedAt(delta: seq<ChangedFile>, path: string): Option<ChangedFile> {
    if delta == [] then None
    else
      var last := delta[|delta| - 1];
      if OldPath(last) == path then Some(last) else ChangedAt(delta[..|delta| - 1], path)
  }

  function Now(was: Published, head: Head): Span
    requires was.lineStart <= was.lineEnd
  {
    match ReanchorOf(was, head)
    case InPlace(line) => Span(was.file, line, line + was.lineEnd - was.lineStart)
    case Moved(line) => Span(was.file, line, line + was.lineEnd - was.lineStart)
    case _ =>
      match ChangedAt(head.delta, was.file)
      case None => Span(was.file, was.lineStart, Max(was.lineStart, was.lineEnd))
      case Some(file) =>
        var start := Rereview.FollowOf(was.lineStart, file);
        Span(file.path, start, Max(start, Rereview.FollowOf(was.lineEnd, file)))
  }

  // The site names the file and category of `was`, within `tolerance` lines of its place now.
  predicate Near(site: Site, was: Published, head: Head, tolerance: int)
    requires was.lineStart <= was.lineEnd
  {
    var now := Now(was, head);
    && site.file == now.path && site.category == was.category
    && site.lineStart <= now.end + tolerance && now.start <= site.lineEnd + tolerance
  }

  // ---- Adoption --------------------------------------------------------------------------

  function Known(previous: seq<Published>): set<Label> {
    set was <- previous :: was.fingerprint
  }

  predicate Ordered(previous: seq<Published>) {
    forall was <- previous :: was.lineStart <= was.lineEnd
  }

  predicate MayAdopt(fp: Label, site: Site, known: set<Label>, was: Published, head: Head, tolerance: int)
    requires was.lineStart <= was.lineEnd
  {
    fp !in known && Near(site, was, head, tolerance)
  }

  function FirstAdopter(fps: seq<Label>, sites: seq<Site>, from: nat, known: set<Label>,
                        was: Published, head: Head, tolerance: int): (i: nat)
    requires |fps| == |sites| && from <= |fps| && was.lineStart <= was.lineEnd
    ensures from <= i <= |fps|
    ensures i < |fps| ==> MayAdopt(fps[i], sites[i], known, was, head, tolerance)
    ensures forall j | from <= j < i :: !MayAdopt(fps[j], sites[j], known, was, head, tolerance)
    decreases |fps| - from
  {
    if from == |fps| || MayAdopt(fps[from], sites[from], known, was, head, tolerance) then from
    else FirstAdopter(fps, sites, from + 1, known, was, head, tolerance)
  }

  // The fingerprints after one published finding looked for its claim.
  function AdoptOne(fps: seq<Label>, sites: seq<Site>, known: set<Label>, was: Published, head: Head,
      tolerance: int): seq<Label>
    requires |fps| == |sites| && was.lineStart <= was.lineEnd
  {
    if was.fingerprint in fps then fps
    else
      var i := FirstAdopter(fps, sites, 0, known, was, head, tolerance);
      if i < |fps| then fps[i := was.fingerprint] else fps
  }

  function AdoptAll(fps: seq<Label>, sites: seq<Site>, known: set<Label>, previous: seq<Published>, head: Head,
      tolerance: int): (r: seq<Label>)
    requires |fps| == |sites| && Ordered(previous)
    ensures |r| == |fps|
    decreases previous
  {
    if previous == [] then fps
    else
      AdoptAll(AdoptOne(fps, sites, known, previous[0], head, tolerance), sites, known, previous[1..], head, tolerance)
  }

  ghost function Fingerprints(claims: seq<Claim>): (fps: seq<Label>)
    reads claims
    ensures |fps| == |claims| && forall i | 0 <= i < |fps| :: fps[i] == claims[i].fingerprint
  {
    seq(|claims|, i requires 0 <= i < |claims| reads claims => claims[i].fingerprint)
  }

  function Sites(claims: seq<Claim>): (sites: seq<Site>)
    ensures |sites| == |claims| && forall i | 0 <= i < |sites| :: sites[i] == claims[i].site
  {
    seq(|claims|, i requires 0 <= i < |claims| => claims[i].site)
  }

  method FindAdopter(claims: seq<Claim>, known: set<Label>, was: Published, head: Head, tolerance: int) returns (i: nat)
    requires was.lineStart <= was.lineEnd
    ensures i == FirstAdopter(Fingerprints(claims), Sites(claims), 0, known, was, head, tolerance)
  {
    i := 0;
    while i < |claims| && !MayAdopt(claims[i].fingerprint, claims[i].site, known, was, head, tolerance)
      invariant i <= |claims|
      invariant FirstAdopter(Fingerprints(claims), Sites(claims), i, known, was, head, tolerance)
             == FirstAdopter(Fingerprints(claims), Sites(claims), 0, known, was, head, tolerance)
    {
      i := i + 1;
    }
  }

  // The published identities in use; other fingerprints in `taken` are never asked about.
  ghost predicate Tracks(taken: set<Label>, fps: seq<Label>, known: set<Label>) {
    forall f <- known :: f in taken <==> f in fps
  }

  lemma AdoptedTracks(taken: set<Label>, fps: seq<Label>, known: set<Label>, i: nat, f: Label)
    requires Tracks(taken, fps, known) && i < |fps| && fps[i] !in known
    ensures Tracks(taken + {f}, fps[i := f], known)
  {
    UpdateKeepsOthers(fps, i, f);
  }

  method Adopt(claims: seq<Claim>, i: nat, fingerprint: Label)
    requires i < |claims| && forall j, k | 0 <= j < k < |claims| :: claims[j] != claims[k]
    modifies claims[i]
    ensures Fingerprints(claims) == old(Fingerprints(claims))[i := fingerprint]
  {
    claims[i].fingerprint := fingerprint;
  }

  lemma AdoptAllFrom(fps: seq<Label>, sites: seq<Site>, known: set<Label>, previous: seq<Published>, k: nat, head: Head,
                     tolerance: int)
    requires |fps| == |sites| && Ordered(previous) && k < |previous|
    ensures Ordered(previous[k..]) && Ordered(previous[k + 1..])
    ensures AdoptAll(fps, sites, known, previous[k..], head, tolerance)
         == AdoptAll(AdoptOne(fps, sites, known, previous[k], head, tolerance), sites, known, previous[k + 1..], head,
                     tolerance)
  {
    assert previous[k..][0] == previous[k] && previous[k..][1..] == previous[k + 1..];
  }

  // One published finding looks for its claim.
  method AdoptPublished(claims: seq<Claim>, known: set<Label>, taken: set<Label>, was: Published, head: Head,
      tolerance: int)
    returns (after: set<Label>)
    requires forall i, j | 0 <= i < j < |claims| :: claims[i] != claims[j]
    requires was.lineStart <= was.lineEnd && was.fingerprint in known && Tracks(taken, Fingerprints(claims), known)
    modifies claims
    ensures Fingerprints(claims) == AdoptOne(old(Fingerprints(claims)), Sites(claims), known, was, head, tolerance)
    ensures Tracks(after, Fingerprints(claims), known)
  {
    after := taken;
    if was.fingerprint in taken {
      return;
    }
    var i := FindAdopter(claims, known, was, head, tolerance);
    if i < |claims| {
      AdoptedTracks(taken, Fingerprints(claims), known, i, was.fingerprint);
      Adopt(claims, i, was.fingerprint);
      after := taken + {was.fingerprint};
    }
  }

  method AdoptIdentities(claims: seq<Claim>, previous: seq<Published>, head: Head, tolerance: int)
    requires forall i, j | 0 <= i < j < |claims| :: claims[i] != claims[j]
    requires Ordered(previous)
    modifies claims
    ensures Fingerprints(claims)
         == AdoptAll(old(Fingerprints(claims)), Sites(claims), Known(previous), previous, head, tolerance)
  {
    var known := Known(previous);
    var taken := set c <- claims :: c.fingerprint;
    ghost var sites := Sites(claims);
    ghost var goal := AdoptAll(Fingerprints(claims), sites, known, previous, head, tolerance);
    assert previous[0..] == previous;
    for k := 0 to |previous|
      invariant Tracks(taken, Fingerprints(claims), known)
      invariant AdoptAll(Fingerprints(claims), sites, known, previous[k..], head, tolerance) == goal
    {
      AdoptAllFrom(Fingerprints(claims), sites, known, previous, k, head, tolerance);
      taken := AdoptPublished(claims, known, taken, previous[k], head, tolerance);
    }
  }

  lemma UpdateKeepsOthers(fps: seq<Label>, i: nat, f: Label)
    requires i < |fps|
    ensures forall g | g != fps[i] && g in fps :: g in fps[i := f]
    ensures forall g | g in fps[i := f] :: g == f || g in fps
    ensures f in fps[i := f]
  {
    forall g | g != fps[i] && g in fps ensures g in fps[i := f] {
      var j :| 0 <= j < |fps| && fps[j] == g;
      assert fps[i := f][j] == g;
    }
    assert fps[i := f][i] == f;
  }

  /** Adoption keeps fingerprints distinct, so no two findings share a published thread. */
  lemma {:induction false} AdoptionKeepsDistinct(fps: seq<Label>, sites: seq<Site>, known: set<Label>,
      previous: seq<Published>, head: Head, tolerance: int)
    requires |fps| == |sites| && Ordered(previous) && Distinct(fps)
    ensures Distinct(AdoptAll(fps, sites, known, previous, head, tolerance))
    decreases previous
  {
    if previous != [] {
      AdoptionKeepsDistinct(AdoptOne(fps, sites, known, previous[0], head, tolerance), sites, known, previous[1..],
        head, tolerance);
    }
  }

  ghost predicate Explained(before: seq<Label>, i: nat, after: Label, site: Site, known: set<Label>,
                            previous: seq<Published>, head: Head, tolerance: int)
    requires i < |before| && Ordered(previous)
  {
    before[i] == after
    || (before[i] !in known && after !in before
        && exists was <- previous :: was.fingerprint == after && Near(site, was, head, tolerance))
  }

  /** A claim is only ever renamed to a published identity of its own file, category and
      place that no claim carried, and a claim already carrying one keeps it. */
  lemma {:induction false} AdoptionIsExplained(fps: seq<Label>, sites: seq<Site>, known: set<Label>,
      previous: seq<Published>, head: Head, tolerance: int)
    requires |fps| == |sites| && Ordered(previous) && Known(previous) <= known
    ensures var after := AdoptAll(fps, sites, known, previous, head, tolerance);
            forall i | 0 <= i < |fps| :: Explained(fps, i, after[i], sites[i], known, previous, head, tolerance)
    decreases previous
  {
    if previous != [] {
      var was, rest := previous[0], previous[1..];
      var next := AdoptOne(fps, sites, known, was, head, tolerance);
      var after := AdoptAll(fps, sites, known, previous, head, tolerance);
      assert was.fingerprint in known;
      AdoptionIsExplained(next, sites, known, rest, head, tolerance);
      forall i | 0 <= i < |fps|
        ensures Explained(fps, i, after[i], sites[i], known, previous, head, tolerance)
      {
        assert Explained(next, i, after[i], sites[i], known, rest, head, tolerance);
        var adopter := FirstAdopter(fps, sites, 0, known, was, head, tolerance);
        if next != fps && after[i] in fps {
          UpdateKeepsOthers(fps, adopter, was.fingerprint);
        }
      }
    }
  }

  // Every claim that carried a known identity still does.
  lemma {:induction false} KnownStay(fps: seq<Label>, sites: seq<Site>, known: set<Label>, previous: seq<Published>,
      head: Head, tolerance: int, f: Label)
    requires |fps| == |sites| && Ordered(previous) && Known(previous) <= known && f in known && f in fps
    ensures f in AdoptAll(fps, sites, known, previous, head, tolerance)
  {
    AdoptionIsExplained(fps, sites, known, previous, head, tolerance);
    var i :| 0 <= i < |fps| && fps[i] == f;
    assert AdoptAll(fps, sites, known, previous, head, tolerance)[i] == f;
  }

  /** No chance is missed: a published identity that no claim carries in the end has no
      unpublished claim near its place. */
  lemma {:induction false} AdoptionIsComplete(fps: seq<Label>, sites: seq<Site>, known: set<Label>,
      previous: seq<Published>, head: Head, tolerance: int)
    requires |fps| == |sites| && Ordered(previous) && Known(previous) <= known
    ensures var after := AdoptAll(fps, sites, known, previous, head, tolerance);
            forall was <- previous | was.fingerprint !in after ::
              forall i | 0 <= i < |fps| :: !MayAdopt(after[i], sites[i], known, was, head, tolerance)
    decreases previous
  {
    if previous != [] {
      var was, rest := previous[0], previous[1..];
      var next := AdoptOne(fps, sites, known, was, head, tolerance);
      var after := AdoptAll(fps, sites, known, previous, head, tolerance);
      AdoptionIsComplete(next, sites, known, rest, head, tolerance);
      if was.fingerprint in next {
        KnownStay(next, sites, known, rest, head, tolerance, was.fingerprint);
      } else {
        AdoptionIsExplained(next, sites, known, rest, head, tolerance);
        forall i | 0 <= i < |fps| ensures !MayAdopt(after[i], sites[i], known, was, head, tolerance) {
          assert Explained(next, i, after[i], sites[i], known, rest, head, tolerance);
        }
      }
    }
  }
}
