/** The copy of one folder to a personal disk: publish, collect the links, save them. */
module DiskCopy {
  import opened Rows
  import opened Paths
  import opened Counting

  // ---------------------------------------------------------------- a listing in pages

  /** What a server answers: `served` entries at most, however many were asked for. */
  function Served<T>(listing: seq<T>, offset: nat, served: nat): seq<T> {
    if offset >= |listing| then []
    else if offset + served < |listing| then listing[offset..offset + served] else listing[offset..]
  }

  /** The entries that reach the handler from `offset` on, when the next page begins `limit` further. */
  function Handled<T>(listing: seq<T>, offset: nat, limit: nat, served: nat): seq<T>
    requires limit > 0
    decreases |listing| - offset
  {
    if offset >= |listing| then [] else Served(listing, offset, served) + Handled(listing, offset + limit, limit, served)
  }

  lemma {:induction false} FullPages<T>(listing: seq<T>, offset: nat, limit: nat)
    requires limit > 0 && offset <= |listing|
    ensures Handled(listing, offset, limit, limit) == listing[offset..]
    decreases |listing| - offset
  {
    if offset + limit < |listing| {
      FullPages(listing, offset + limit, limit);
      assert listing[offset..offset + limit] + listing[offset + limit..] == listing[offset..];
    }
  }

  lemma {:induction false} HandledLength<T>(listing: seq<T>, offset: nat, limit: nat, served: nat)
    requires limit > 0 && offset <= |listing| && served <= limit
    ensures |Handled(listing, offset, limit, served)| <= |listing| - offset
    ensures served < limit && served < |listing| - offset ==> |Handled(listing, offset, limit, served)| < |listing| - offset
    decreases |listing| - offset
  {
    if offset + limit < |listing| { HandledLength(listing, offset + limit, limit, served); }
  }

  /** Every entry is handled exactly when the server never cuts a page short: because it serves as many as were
    * asked for, or because there are no more than it serves.
    */
  lemma AllHandled<T>(listing: seq<T>, limit: nat, served: nat)
    requires limit > 0 && served <= limit
    ensures Handled(listing, 0, limit, served) == listing <==> served == limit || |listing| <= served
  {
    assert listing[0..] == listing;
    if served == limit {
      FullPages(listing, 0, limit);
    } else {
      HandledLength(listing, 0, limit, served);
    }
  }

  /** The number of pages, and the page an offset lies on, as the source counts them. */
  function PageCount(total: nat, limit: nat): nat
    requires limit > 0
  {
    var pages := (total + limit - 1) / limit;
    if pages > 1 then pages else 1
  }

  function PageNumber(offset: nat, limit: nat): nat
    requires limit > 0
  {
    offset / limit + 1
  }

  function NextOffset(page: nat, limit: nat): nat {
    page * limit
  }

  predicate PageStart(offset: nat, limit: nat)
    requires limit > 0
  {
    offset % limit == 0
  }

  lemma Next(a: nat, c: nat)
    ensures (a + 1) * c == a * c + c
  {
  }

  lemma Quotient(turn: nat, limit: nat)
    requires limit > 0
    ensures turn * limit / limit == turn && turn * limit % limit == 0
  {
    var product := turn * limit;
    var q, r := product / limit, product % limit;
    assert product == q * limit + r;
    Next(turn, limit);
    Next(q, limit);
    if q < turn { Times(q + 1, turn, limit); }
    if turn < q { Times(turn + 1, q, limit); }
  }

  /** A page is the last one exactly when nothing of the listing lies behind it. */
  lemma LastPage(total: nat, limit: nat, page: nat)
    requires limit > 0 && page >= 1
    ensures page >= PageCount(total, limit) <==> NextOffset(page, limit) >= total
  {
    var pages := (total + limit - 1) / limit;
    var rest := (total + limit - 1) % limit;
    assert total + limit - 1 == pages * limit + rest;
    if page >= pages {
      Times(pages, page, limit);
    } else {
      Times(page, pages - 1, limit);
      Next(pages - 1, limit);
    }
  }

  /** The pages lie one limit apart. */
  lemma PageStep(offset: nat, limit: nat, total: nat)
    requires limit > 0 && PageStart(offset, limit)
    ensures var page := PageNumber(offset, limit);
            && NextOffset(page, limit) == offset + limit && PageStart(offset + limit, limit)
            && (page >= PageCount(total, limit) <==> offset + limit >= total)
  {
    var turn := offset / limit;
    assert offset == turn * limit;
    Next(turn, limit);
    Quotient(turn + 1, limit);
    LastPage(total, limit, turn + 1);
  }

  lemma HandledStep<T>(listing: seq<T>, offset: nat, limit: nat, served: nat, before: seq<T>)
    requires limit > 0
    ensures before + Handled(listing, offset, limit, served)
            == before + Served(listing, offset, served) + Handled(listing, offset + limit, limit, served)
    ensures offset + limit >= |listing| ==> Handled(listing, offset + limit, limit, served) == []
  {
  }

  /** `_walk`: the offsets are multiples of the limit, and the last page is computed from the total. */
  method Walk<T>(listing: seq<T>, limit: nat, served: nat) returns (handled: seq<T>)
    requires limit > 0
    ensures handled == Handled(listing, 0, limit, served)
  {
    handled := [];
    var offset, total: nat := 0, |listing|;
    Quotient(0, limit);
    assert PageStart(0, limit);
    hide *;
    while true
      invariant PageStart(offset, limit) && (offset > 0 ==> offset < total)
      invariant handled + Handled(listing, offset, limit, served) == Handled(listing, 0, limit, served)
      decreases total - offset
    {
      PageStep(offset, limit, total);
      HandledStep(listing, offset, limit, served, handled);
      handled := handled + Served(listing, offset, served);
      var page := PageNumber(offset, limit);
      if page >= PageCount(total, limit) { return; }
      offset := NextOffset(page, limit);
    }
  }

  // ---------------------------------------------------------------- the results

  /** A listed resource: how its publication is refused, if it is, with `Some(true)` for refused access, and whether it
    * has a public key afterwards.
    */
  datatype Resource = Resource(path: string, refused: Option<bool>, key: bool)

  /** What became of a saved link. */
  datatype Outcome = Saved | Skipped | Unconfirmed | NotSaved

  /** How the saving of the links ends, one by one; `None` stands for refused access. */
  type Saving = string -> Option<Outcome>

  /** The publication of the resource does not end the copy. */
  predicate Publishable(r: Resource, retryEnabled: bool) {
    r.refused.None? || (!retryEnabled && r.refused == Some(false))
  }

  predicate AllPublishable(listing: seq<Resource>, retryEnabled: bool) {
    forall i | 0 <= i < |listing| :: Publishable(listing[i], retryEnabled)
  }

  /** The resources that could not be published. */
  function RefusedIn(listing: seq<Resource>): seq<string> {
    if listing == [] then []
    else
      var last := listing[|listing| - 1];
      RefusedIn(listing[..|listing| - 1]) + if last.refused.Some? then [last.path] else []
  }

  /** The resources that are not blocked and have a public key, or have none. */
  function Keyed(listing: seq<Resource>, failed: set<string>, key: bool): seq<string> {
    if listing == [] then []
    else
      var last := listing[|listing| - 1];
      Keyed(listing[..|listing| - 1], failed, key) + if !Blocked(last.path, failed) && last.key == key then [last.path] else []
  }

  function Also(some: seq<string>, one: bool, path: string): seq<string> {
    if one then some + [path] else some
  }

  /** The links whose saving ended with `outcome`. */
  function Ending(pending: seq<string>, saving: Saving, outcome: Outcome): seq<string> {
    if pending == [] then []
    else
      var last := pending[|pending| - 1];
      Also(Ending(pending[..|pending| - 1], saving, outcome), saving(last) == Some(outcome), last)
  }

  /** No saving ended with an error. */
  predicate Ended(links: seq<string>, saving: Saving) {
    forall p | p in links :: saving(p).Some?
  }

  function PathsOf(some: seq<string>): set<string> {
    set p | p in some
  }

  class Copier {
    var links: seq<string>
    var fails: seq<string>
    var skipped: seq<string>
    var unconfirmed: seq<string>
    var failedPublications: set<string>

    constructor ()
      ensures links == fails == skipped == unconfirmed == [] && failedPublications == {}
    {
      links, fails, skipped, unconfirmed, failedPublications := [], [], [], [], {};
    }

    /** Every resource with a result, once for each list it is in. */
    function Results(): multiset<string>
      reads this
    {
      multiset(links) + multiset(fails) + multiset(skipped) + multiset(unconfirmed)
    }

    /** `make_links`: with retries off, a resource that could not be published is a failure at once. With retries on, or
      * when access is refused, the copy ends there.
      */
    method MakeLinks(listing: seq<Resource>, retryEnabled: bool) returns (s: Status)
      requires fails == [] && failedPublications == {}
      modifies this`fails, this`failedPublications
      ensures s.Pass? <==> AllPublishable(listing, retryEnabled)
      ensures s.Pass? ==> fails == RefusedIn(listing) && failedPublications == PathsOf(RefusedIn(listing))
    {
      var i := 0;
      while i < |listing|
        invariant i <= |listing| && forall k | 0 <= k < i :: Publishable(listing[k], retryEnabled)
        invariant fails == RefusedIn(listing[..i]) && failedPublications == PathsOf(fails)
      {
        assert listing[..i + 1][..i] == listing[..i];
        if listing[i].refused.Some? {
          if retryEnabled || listing[i].refused.value { return Raise(Raised(Error(SourceError, false, false, false))); }
          failedPublications := failedPublications + {listing[i].path};
          fails := fails + [listing[i].path];
        }
        i := i + 1;
      }
      assert listing[..i] == listing;
      return Pass;
    }

    /** `get_links`: of what is not blocked the keys are collected; what has none is a failure. */
    method GetLinks(listing: seq<Resource>)
      modifies this`links, this`fails
      ensures links == old(links) + Keyed(listing, failedPublications, true)
      ensures fails == old(fails) + Keyed(listing, failedPublications, false)
    {
      var i := 0;
      while i < |listing|
        invariant i <= |listing|
        invariant links == old(links) + Keyed(listing[..i], failedPublications, true)
        invariant fails == old(fails) + Keyed(listing[..i], failedPublications, false)
      {
        assert listing[..i + 1][..i] == listing[..i];
        CollectUnlessBlocked(listing[i]);
        i := i + 1;
      }
      assert listing[..i] == listing;
    }

    method CollectUnlessBlocked(resource: Resource)
      modifies this`links, this`fails
      ensures Blocked(resource.path, failedPublications) ==> links == old(links) && fails == old(fails)
      ensures !Blocked(resource.path, failedPublications) ==>
                if resource.key then links == old(links) + [resource.path] && fails == old(fails)
                else links == old(links) && fails == old(fails) + [resource.path]
    {
      if Blocked(resource.path, failedPublications) { return; }
      if resource.key { Collect(resource.path); } else { RecordFailure(resource.path); }
    }

    method Collect(path: string)
      modifies this`links
      ensures links == old(links) + [path]
    {
      links := links + [path];
    }

    /** `_record_result`. */
    method RecordResult(path: string, outcome: Outcome)
      requires !outcome.NotSaved?
      modifies this`links, this`skipped, this`unconfirmed
      ensures links == Also(old(links), outcome.Saved?, path)
      ensures skipped == Also(old(skipped), outcome.Skipped?, path)
      ensures unconfirmed == Also(old(unconfirmed), outcome.Unconfirmed?, path)
    {
      if outcome.Skipped? { skipped := skipped + [path]; }
      else if outcome.Unconfirmed? { unconfirmed := unconfirmed + [path]; }
      else { links := links + [path]; }
    }

    /** `save_links`: every link that was collected goes to the list of its outcome. Refused access ends the copy. */
    method SaveLinks(saving: Saving) returns (s: Status)
      modifies this`links, this`fails, this`skipped, this`unconfirmed
      ensures s.Pass? <==> Ended(old(links), saving)
      ensures s.Pass? ==>
                && links == Ending(old(links), saving, Saved)
                && fails == old(fails) + Ending(old(links), saving, NotSaved)
                && skipped == old(skipped) + Ending(old(links), saving, Skipped)
                && unconfirmed == old(unconfirmed) + Ending(old(links), saving, Unconfirmed)
    {
      var pending := links;
      links := [];
      var i := 0;
      EndedNone(pending, saving);
      GrownNone([], pending, saving, Saved);
      GrownNone(fails, pending, saving, NotSaved);
      GrownNone(skipped, pending, saving, Skipped);
      GrownNone(unconfirmed, pending, saving, Unconfirmed);
      hide Ending, Also, Grown, Ended;
      while i < |pending|
        invariant i <= |pending| && Ended(pending[..i], saving)
        invariant links == Grown([], pending, i, saving, Saved)
        invariant fails == Grown(old(fails), pending, i, saving, NotSaved)
        invariant skipped == Grown(old(skipped), pending, i, saving, Skipped)
        invariant unconfirmed == Grown(old(unconfirmed), pending, i, saving, Unconfirmed)
      {
        GrownNext([], pending, i, saving, Saved);
        GrownNext(old(fails), pending, i, saving, NotSaved);
        GrownNext(old(skipped), pending, i, saving, Skipped);
        GrownNext(old(unconfirmed), pending, i, saving, Unconfirmed);
        EndedNext(pending, i, saving);
        s := SaveLink(pending[i], saving);
        if s.Raise? { return; }
        i := i + 1;
      }
      assert pending[..i] == pending;
      GrownAll([], pending, saving, Saved);
      GrownAll(old(fails), pending, saving, NotSaved);
      GrownAll(old(skipped), pending, saving, Skipped);
      GrownAll(old(unconfirmed), pending, saving, Unconfirmed);
      return Pass;
    }

    /** One link of the loop: refused access ends the copy, every other outcome is booked. */
    method SaveLink(path: string, saving: Saving) returns (s: Status)
      modifies this`links, this`fails, this`skipped, this`unconfirmed
      ensures s.Pass? <==> saving(path).Some?
      ensures s.Pass? ==>
                && links == Also(old(links), saving(path) == Some(Saved), path)
                && fails == Also(old(fails), saving(path) == Some(NotSaved), path)
                && skipped == Also(old(skipped), saving(path) == Some(Skipped), path)
                && unconfirmed == Also(old(unconfirmed), saving(path) == Some(Unconfirmed), path)
    {
      if saving(path).None? { return Raise(Raised(Error(SourceError, false, true, false))); }
      var outcome := saving(path).value;
      if outcome.NotSaved? { RecordFailure(path); } else { RecordResult(path, outcome); }
      return Pass;
    }

    /** `_file_failure`. */
    method RecordFailure(path: string)
      modifies this`fails
      ensures fails == old(fails) + [path]
    {
      fails := fails + [path];
    }

    /** The whole copy over a stable listing that the server pages in full. It passes unless access is refused, or a
      * publication with retries on. A resource then has exactly one result, or none: none exactly when it lies strictly
      * below one whose publication failed.
      */
    method Copy(listing: seq<Resource>, limit: nat, served: nat, retryEnabled: bool, saving: Saving,
                ghost names: seq<seq<string>>)
      returns (s: Status)
      requires 0 < limit && served <= limit && (served == limit || |listing| <= served)
      requires links == fails == skipped == unconfirmed == [] && failedPublications == {}
      requires Listed(listing, names)
      modifies this
      ensures var failed := PathsOf(RefusedIn(listing));
              var pending := Keyed(listing, failed, true);
              && (s.Pass? <==> AllPublishable(listing, retryEnabled) && Ended(pending, saving))
              && (s.Pass? ==>
                    && failedPublications == failed && links == Ending(pending, saving, Saved)
                    && skipped == Ending(pending, saving, Skipped) && unconfirmed == Ending(pending, saving, Unconfirmed)
                    && fails == RefusedIn(listing) + Keyed(listing, failed, false) + Ending(pending, saving, NotSaved))
      ensures s.Pass? ==> OneEach(listing, names)
    {
      DistinctPaths(listing, names);
      hide *;
      s := MakeAndGetLinks(listing, limit, served, retryEnabled);
      if s.Raise? { return; }
      ghost var pending := links;
      s := SaveLinks(saving);
      if s.Pass? { AllSorted(listing, names, failedPublications, pending, saving); }
    }

    /** A resource has one result, or none if it is hidden by a failed publication. */
    ghost predicate OneEach(listing: seq<Resource>, names: seq<seq<string>>)
      requires Listed(listing, names)
      reads this
    {
      forall i | 0 <= i < |listing| ::
        Results()[listing[i].path] == if Hidden(listing, names, failedPublications, i) then 0 else 1
    }

    /** The two walks over the listing. */
    method MakeAndGetLinks(listing: seq<Resource>, limit: nat, served: nat, retryEnabled: bool) returns (s: Status)
      requires 0 < limit && served <= limit && (served == limit || |listing| <= served)
      requires links == fails == skipped == unconfirmed == [] && failedPublications == {}
      modifies this
      ensures s.Pass? <==> AllPublishable(listing, retryEnabled)
      ensures s.Pass? ==>
                && failedPublications == PathsOf(RefusedIn(listing)) && links == Keyed(listing, failedPublications, true)
                && fails == RefusedIn(listing) + Keyed(listing, failedPublications, false)
                && skipped == unconfirmed == []
    {
      AllHandled(listing, limit, served);
      hide *;
      var published := Walk(listing, limit, served);
      s := MakeLinks(published, retryEnabled);
      if s.Raise? { return; }
      var collected := Walk(listing, limit, served);
      assert links == [];
      GetLinks(collected);
    }

    /** The lists hold every resource that is not hidden, once. */
    lemma AllSorted(listing: seq<Resource>, names: seq<seq<string>>, failed: set<string>, pending: seq<string>, saving: Saving)
      requires Listed(listing, names) && Distinct(listing) && failed == PathsOf(RefusedIn(listing))
      requires pending == Keyed(listing, failed, true) && Ended(pending, saving)
      requires links == Ending(pending, saving, Saved) && skipped == Ending(pending, saving, Skipped)
      requires unconfirmed == Ending(pending, saving, Unconfirmed) && failed == failedPublications
      requires fails == RefusedIn(listing) + Keyed(listing, failed, false) + Ending(pending, saving, NotSaved)
      ensures OneEach(listing, names)
    {
      EndingAll(pending, saving);
      KeyedAll(listing, failed);
      RefusedAll(listing);
      hide Keyed, Ending, RefusedIn, Listed, Distinct, Unblocked, FailedIn, Hidden, PathsOf;
      assert Results() == FailedIn(listing, failed) + Unblocked(listing, failed);
      AllOneResult(listing, names);
    }

    lemma AllOneResult(listing: seq<Resource>, names: seq<seq<string>>)
      requires Listed(listing, names) && Distinct(listing)
      requires failedPublications <= (set r | r in listing :: r.path)
      ensures forall i | 0 <= i < |listing| ::
                (FailedIn(listing, failedPublications) + Unblocked(listing, failedPublications))[listing[i].path]
                == if Hidden(listing, names, failedPublications, i) then 0 else 1
    {
      forall i | 0 <= i < |listing|
        ensures (FailedIn(listing, failedPublications) + Unblocked(listing, failedPublications))[listing[i].path]
                == if Hidden(listing, names, failedPublications, i) then 0 else 1
      {
        OneResult(listing, names, i);
      }
    }

    lemma OneResult(listing: seq<Resource>, names: seq<seq<string>>, i: nat)
      requires Listed(listing, names) && Distinct(listing) && i < |listing|
      requires failedPublications <= (set r | r in listing :: r.path)
      ensures (FailedIn(listing, failedPublications) + Unblocked(listing, failedPublications))[listing[i].path]
              == if Hidden(listing, names, failedPublications, i) then 0 else 1
    {
      FailedCount(listing, failedPublications, listing[i].path);
      UnblockedCount(listing, failedPublications, listing[i].path);
      BlockedMeans(listing, names, failedPublications, i);
    }
  }

  /** A failed publication also blocks what lies below it. */
  predicate Blocked(path: string, failed: set<string>) {
    exists f | f in failed :: path == f || StartsWith(path, RStrip(f) + "/")
  }

  function Unblocked(listing: seq<Resource>, failed: set<string>): multiset<string> {
    if listing == [] then multiset{}
    else
      var last := listing[|listing| - 1];
      Unblocked(listing[..|listing| - 1], failed) + if Blocked(last.path, failed) then multiset{} else multiset{last.path}
  }

  /** What is not blocked has a key or has none. */
  lemma {:induction false} KeyedAll(listing: seq<Resource>, failed: set<string>)
    ensures multiset(Keyed(listing, failed, true)) + multiset(Keyed(listing, failed, false)) == Unblocked(listing, failed)
    decreases |listing|
  {
    if listing != [] {
      KeyedAll(listing[..|listing| - 1], failed);
      hide Blocked;
    }
  }

  /** A list to which the first `i` links with `outcome` were added. */
  function Grown(before: seq<string>, pending: seq<string>, i: nat, saving: Saving, outcome: Outcome): seq<string>
    requires i <= |pending|
  {
    before + Ending(pending[..i], saving, outcome)
  }

  lemma EndedNone(pending: seq<string>, saving: Saving)
    ensures Ended(pending[..0], saving)
  {
  }

  lemma EndedNext(pending: seq<string>, i: nat, saving: Saving)
    requires i < |pending| && Ended(pending[..i], saving)
    ensures Ended(pending[..i + 1], saving) <==> saving(pending[i]).Some?
    ensures saving(pending[i]).None? ==> !Ended(pending, saving)
  {
    assert pending[..i + 1] == pending[..i] + [pending[i]];
    assert pending[i] in pending && pending[i] in pending[..i + 1];
  }

  lemma GrownNone(before: seq<string>, pending: seq<string>, saving: Saving, outcome: Outcome)
    ensures Grown(before, pending, 0, saving, outcome) == before
  {
  }

  lemma GrownNext(before: seq<string>, pending: seq<string>, i: nat, saving: Saving, outcome: Outcome)
    requires i < |pending|
    ensures Grown(before, pending, i + 1, saving, outcome)
            == Also(Grown(before, pending, i, saving, outcome), saving(pending[i]) == Some(outcome), pending[i])
  {
    assert pending[..i + 1][..i] == pending[..i];
  }

  lemma GrownAll(before: seq<string>, pending: seq<string>, saving: Saving, outcome: Outcome)
    ensures Grown(before, pending, |pending|, saving, outcome) == before + Ending(pending, saving, outcome)
    ensures before == [] ==> Grown(before, pending, |pending|, saving, outcome) == Ending(pending, saving, outcome)
  {
    assert pending[..|pending|] == pending;
  }

  /** Every link goes to the list of its outcome. */
  lemma {:induction false} EndingAll(pending: seq<string>, saving: Saving)
    requires Ended(pending, saving)
    ensures Sorted(Ending(pending, saving, Saved), Ending(pending, saving, NotSaved), Ending(pending, saving, Skipped),
                   Ending(pending, saving, Unconfirmed)) == multiset(pending)
    decreases |pending|
  {
    if pending != [] {
      var k := |pending| - 1;
      var before, last := pending[..k], pending[k];
      assert forall p | p in before :: p in pending;
      EndingAll(before, saving);
      assert multiset(pending) == multiset(before) + multiset{last} by { assert pending == before + [last]; }
      EndingOne(pending, saving, Saved);
      EndingOne(pending, saving, NotSaved);
      EndingOne(pending, saving, Skipped);
      EndingOne(pending, saving, Unconfirmed);
      hide Ending, Sorted, Also;
      SortedNext(Ending(before, saving, Saved), Ending(before, saving, NotSaved), Ending(before, saving, Skipped),
                 Ending(before, saving, Unconfirmed), saving(last).value, last);
    }
  }

  lemma EndingOne(pending: seq<string>, saving: Saving, outcome: Outcome)
    requires pending != []
    ensures var before, last := pending[..|pending| - 1], pending[|pending| - 1];
            Ending(pending, saving, outcome) == Also(Ending(before, saving, outcome), saving(last) == Some(outcome), last)
  {
  }

  function Sorted(a: seq<string>, b: seq<string>, c: seq<string>, d: seq<string>): multiset<string> {
    multiset(a) + multiset(b) + multiset(c) + multiset(d)
  }

  lemma SortedNext(a: seq<string>, b: seq<string>, c: seq<string>, d: seq<string>, outcome: Outcome, x: string)
    ensures Sorted(Also(a, outcome.Saved?, x), Also(b, outcome.NotSaved?, x), Also(c, outcome.Skipped?, x),
                   Also(d, outcome.Unconfirmed?, x)) == Sorted(a, b, c, d) + multiset{x}
  {
  }

  /** Exactly the resources that were refused are in the list. */
  lemma {:induction false} RefusedAre(listing: seq<Resource>)
    ensures forall p :: p in RefusedIn(listing) <==> exists i | 0 <= i < |listing| :: listing[i].path == p && listing[i].refused.Some?
    decreases |listing|
  {
    if listing != [] {
      var before, k := listing[..|listing| - 1], |listing| - 1;
      RefusedAre(before);
      forall p ensures p in RefusedIn(listing) <==> exists i | 0 <= i < |listing| :: listing[i].path == p && listing[i].refused.Some? {
        if p in RefusedIn(before) {
          var i :| 0 <= i < k && before[i].path == p && before[i].refused.Some?;
          assert listing[i] == before[i];
        }
        if i :| 0 <= i < |listing| && listing[i].path == p && listing[i].refused.Some? {
          if i < k { assert before[i] == listing[i]; }
        }
      }
    }
  }

  lemma RefusedAll(listing: seq<Resource>)
    requires Distinct(listing)
    ensures multiset(RefusedIn(listing)) == FailedIn(listing, PathsOf(RefusedIn(listing)))
    ensures PathsOf(RefusedIn(listing)) <= set r | r in listing :: r.path
  {
    RefusedAre(listing);
    forall i | 0 <= i < |listing| ensures listing[i].path in PathsOf(RefusedIn(listing)) <==> listing[i].refused.Some? {
      RefusedAt(listing, i);
    }
    RefusedCount(listing, PathsOf(RefusedIn(listing)));
    hide RefusedIn, FailedIn;
    forall p | p in RefusedIn(listing) ensures p in set r | r in listing :: r.path {
      var i :| 0 <= i < |listing| && listing[i].path == p && listing[i].refused.Some?;
      assert listing[i] in listing;
    }
  }

  lemma {:induction false} RefusedCount(some: seq<Resource>, failed: set<string>)
    requires forall i | 0 <= i < |some| :: some[i].path in failed <==> some[i].refused.Some?
    ensures multiset(RefusedIn(some)) == FailedIn(some, failed)
    decreases |some|
  {
    if some != [] {
      var before, last := some[..|some| - 1], some[|some| - 1];
      RefusedCount(before, failed);
      assert multiset(RefusedIn(before) + [last.path]) == multiset(RefusedIn(before)) + multiset{last.path};
    }
  }

  lemma RefusedAt(listing: seq<Resource>, k: nat)
    requires Distinct(listing) && k < |listing|
    ensures listing[k].path in PathsOf(RefusedIn(listing)) <==> listing[k].refused.Some?
  {
    RefusedAre(listing);
    hide RefusedIn;
  }

  lemma {:induction false} UnblockedCount(listing: seq<Resource>, failed: set<string>, path: string)
    requires Distinct(listing)
    ensures Unblocked(listing, failed)[path]
            == if !Blocked(path, failed) && (exists k | 0 <= k < |listing| :: listing[k].path == path) then 1 else 0
    decreases |listing|
  {
    if listing != [] {
      var before, last := listing[..|listing| - 1], |listing| - 1;
      UnblockedCount(before, failed, path);
      if listing[last].path == path {
        assert forall k | 0 <= k < last :: before[k].path == listing[k].path != path;
      } else if exists k | 0 <= k < |listing| :: listing[k].path == path {
        var k :| 0 <= k < |listing| && listing[k].path == path;
        assert before[k].path == path;
      }
    }
  }

  /** The paths of the listing that are in `some`. */
  function FailedIn(listing: seq<Resource>, some: set<string>): multiset<string> {
    if listing == [] then multiset{}
    else
      var last := listing[|listing| - 1];
      FailedIn(listing[..|listing| - 1], some) + if last.path in some then multiset{last.path} else multiset{}
  }

  predicate Distinct(listing: seq<Resource>) {
    forall i, j | 0 <= i < j < |listing| :: listing[i].path != listing[j].path
  }

  lemma {:induction false} FailedCount(listing: seq<Resource>, some: set<string>, path: string)
    requires Distinct(listing)
    ensures FailedIn(listing, some)[path] == if path in some && (exists k | 0 <= k < |listing| :: listing[k].path == path) then 1 else 0
    decreases |listing|
  {
    if listing != [] {
      var before, last := listing[..|listing| - 1], |listing| - 1;
      FailedCount(before, some, path);
      if listing[last].path == path {
        assert forall k | 0 <= k < last :: before[k].path == listing[k].path != path;
      } else if exists k | 0 <= k < |listing| :: listing[k].path == path {
        var k :| 0 <= k < |listing| && listing[k].path == path;
        assert before[k].path == path;
      }
    }
  }

  /** The paths of the listing are canonical, and no two are the same. */
  ghost predicate Listed(listing: seq<Resource>, names: seq<seq<string>>) {
    && |names| == |listing|
    && (forall i | 0 <= i < |listing| :: Names(names[i]) && names[i] != [] && listing[i].path == Disk(names[i]))
    && forall i, j | 0 <= i < j < |names| :: names[i] != names[j]
  }

  lemma DistinctPaths(listing: seq<Resource>, names: seq<seq<string>>)
    requires Listed(listing, names)
    ensures Distinct(listing)
  {
    forall i, j | 0 <= i < j < |listing| ensures listing[i].path != listing[j].path {
      if listing[i].path == listing[j].path { DiskInjective(names[i], names[j]); }
    }
  }

  /** Resource `i` lies strictly below one whose publication failed, and is not such a one itself. */
  ghost predicate Hidden(listing: seq<Resource>, names: seq<seq<string>>, failed: set<string>, i: nat)
    requires |names| == |listing| && i < |listing|
  {
    listing[i].path !in failed && exists k | 0 <= k < |listing| :: listing[k].path in failed && Below(names[i], names[k])
  }

  lemma BlockedMeans(listing: seq<Resource>, names: seq<seq<string>>, failed: set<string>, i: nat)
    requires Listed(listing, names) && i < |listing| && failed <= (set r | r in listing :: r.path)
    ensures Blocked(listing[i].path, failed) <==> listing[i].path in failed || Hidden(listing, names, failed, i)
  {
    forall k | 0 <= k < |listing|
      ensures StartsWith(listing[i].path, RStrip(listing[k].path) + "/") <==> Below(names[i], names[k])
    {
      DiskPrefix(names[i], names[k]);
    }
    forall f | f in failed ensures exists k | 0 <= k < |listing| :: listing[k].path == f {
      var r :| r in listing && r.path == f;
    }
  }

  /** Siblings are never below one another: every resource of one folder has exactly one result. */
  lemma SiblingsAreNotHidden(listing: seq<Resource>, names: seq<seq<string>>, failed: set<string>, folder: seq<string>)
    requires |names| == |listing| && forall i | 0 <= i < |names| :: |names[i]| == |folder| + 1
    ensures forall i | 0 <= i < |listing| :: !Hidden(listing, names, failed, i)
  {
  }
}
