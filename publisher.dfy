/** Publisher (publisher.cpp): subscribers kept in ascending id order, and
    unsubscriptions collected in a sorted list and applied by one merge
    pass over the subscribers. */
module Publishing {

  /** `Subscriber`: its id and the token of its callback. */
  datatype Subscriber = Subscriber(id: nat, cb: nat)

  /** A subscriber callback invoked with the published text. */
  datatype Call = Call(cb: nat, data: string)

  ghost predicate StrictlyIncreasing(s: seq<Subscriber>)
  {
    forall i, j | 0 <= i < j < |s| :: s[i].id < s[j].id
  }

  ghost predicate Sorted(u: seq<nat>)
  {
    forall p, q | 0 <= p <= q < |u| :: u[p] <= u[q]
  }

  /** The subscribers whose id does not appear in `u`, in their order. */
  function Survivors(s: seq<Subscriber>, u: seq<nat>): seq<Subscriber>
  {
    if s == [] then []
    else Survivors(s[..|s| - 1], u) + (if s[|s| - 1].id in u then [] else [s[|s| - 1]])
  }

  /** The subscribers whose id is in `keeps`, in their order. */
  function Kept(s: seq<Subscriber>, keeps: set<nat>): seq<Subscriber>
  {
    if s == [] then []
    else Kept(s[..|s| - 1], keeps) + (if s[|s| - 1].id in keeps then [s[|s| - 1]] else [])
  }

  /** The ids publish schedules for removal: those whose callback answered
      false or threw, in subscriber order. */
  function DroppedIds(s: seq<Subscriber>, keeps: set<nat>): seq<nat>
  {
    if s == [] then []
    else DroppedIds(s[..|s| - 1], keeps) + (if s[|s| - 1].id in keeps then [] else [s[|s| - 1].id])
  }

  /** One call per subscriber, in order, with the same data. */
  function Notified(s: seq<Subscriber>, data: string): (calls: seq<Call>)
    ensures |calls| == |s|
  {
    if s == [] then [] else Notified(s[..|s| - 1], data) + [Call(s[|s| - 1].cb, data)]
  }

  /** std::lower_bound: the first position whose element is not below `x`. */
  function LowerBound(u: seq<nat>, x: nat): (r: nat)
    ensures r <= |u|
    ensures forall k | 0 <= k < r :: u[k] < x
    ensures Sorted(u) ==> forall k | r <= k < |u| :: x <= u[k]
  {
    if u == [] || x <= u[0] then 0 else 1 + LowerBound(u[1..], x)
  }

  // ---------------------------------------------------------------------
  // Properties

  /** Notified lists every subscriber exactly once, at its own position. */
  lemma {:induction false} NotifiedEach(s: seq<Subscriber>, data: string)
    ensures forall i | 0 <= i < |s| :: Notified(s, data)[i] == Call(s[i].cb, data)
    decreases |s|
  {
    if s != [] {
      var init := s[..|s| - 1];
      NotifiedEach(init, data);
      forall i | 0 <= i < |s| - 1
        ensures Notified(s, data)[i] == Call(s[i].cb, data)
      {
        assert Notified(s, data)[i] == Notified(init, data)[i];
        assert init[i] == s[i];
      }
    }
  }

  /** A subscriber survives iff it was present and its id is not listed. */
  lemma {:induction false} SurvivorsMembers(s: seq<Subscriber>, u: seq<nat>)
    ensures forall x :: x in Survivors(s, u) <==> x in s && x.id !in u
    decreases |s|
  {
    if s != [] {
      var init := s[..|s| - 1];
      SurvivorsMembers(init, u);
      assert s == init + [s[|s| - 1]];
    }
  }

  /** Removal keeps the remaining ids strictly increasing. */
  lemma {:induction false} SurvivorsIncreasing(s: seq<Subscriber>, u: seq<nat>)
    requires StrictlyIncreasing(s)
    ensures StrictlyIncreasing(Survivors(s, u))
    decreases |s|
  {
    if s != [] {
      var init := s[..|s| - 1];
      SurvivorsIncreasing(init, u);
      SurvivorsMembers(init, u);
      var r := Survivors(init, u);
      forall i | 0 <= i < |r|
        ensures r[i].id < s[|s| - 1].id
      {
        assert r[i] in init;
      }
    }
  }

  /** Every id DroppedIds lists belongs to one of the subscribers. */
  lemma {:induction false} DroppedIdsFrom(s: seq<Subscriber>, keeps: set<nat>)
    ensures forall z | z in DroppedIds(s, keeps) :: exists j | 0 <= j < |s| :: s[j].id == z && z !in keeps
    decreases |s|
  {
    if s != [] {
      var init := s[..|s| - 1];
      DroppedIdsFrom(init, keeps);
      forall z | z in DroppedIds(s, keeps)
        ensures exists j | 0 <= j < |s| :: s[j].id == z && z !in keeps
      {
        if z in DroppedIds(init, keeps) {
          var j :| 0 <= j < |init| && init[j].id == z && z !in keeps;
          assert s[j] == init[j];
        } else {
          assert s[|s| - 1].id == z && z !in keeps;
        }
      }
    }
  }

  /** The ids publish collects are sorted when the subscribers are. */
  lemma {:induction false} DroppedIdsSorted(s: seq<Subscriber>, keeps: set<nat>)
    requires StrictlyIncreasing(s)
    ensures Sorted(DroppedIds(s, keeps))
    decreases |s|
  {
    if s != [] {
      var init := s[..|s| - 1];
      DroppedIdsSorted(init, keeps);
      DroppedIdsFrom(init, keeps);
      var d := DroppedIds(init, keeps);
      forall k | 0 <= k < |d|
        ensures d[k] <= s[|s| - 1].id
      {
        assert d[k] in d;
        var j :| 0 <= j < |init| && init[j].id == d[k] && d[k] !in keeps;
        assert init[j] == s[j];
      }
    }
  }

  /** An id none of the subscribers has does not change who survives. */
  lemma {:induction false} SurvivorsIgnoreForeign(s: seq<Subscriber>, u: seq<nat>, y: nat)
    requires forall j | 0 <= j < |s| :: s[j].id != y
    ensures Survivors(s, u + [y]) == Survivors(s, u)
    decreases |s|
  {
    if s != [] {
      SurvivorsIgnoreForeign(s[..|s| - 1], u, y);
    }
  }

  /** Removing the ids publish collected leaves exactly the subscribers
      whose callback answered true. */
  lemma {:induction false} PublishSurvivors(s: seq<Subscriber>, keeps: set<nat>)
    requires StrictlyIncreasing(s)
    ensures Survivors(s, DroppedIds(s, keeps)) == Kept(s, keeps)
    decreases |s|
  {
    if s != [] {
      var init := s[..|s| - 1];
      var x := s[|s| - 1];
      var d := DroppedIds(init, keeps);
      PublishSurvivors(init, keeps);
      DroppedIdsFrom(init, keeps);
      forall z | z in d
        ensures z != x.id
      {
        var j :| 0 <= j < |init| && init[j].id == z && z !in keeps;
        assert init[j] == s[j];
      }
      if x.id !in keeps {
        assert DroppedIds(s, keeps) == d + [x.id];
        SurvivorsIgnoreForeign(init, d, x.id);
        assert Survivors(s, d + [x.id]) == Survivors(init, d + [x.id]);
      } else {
        assert DroppedIds(s, keeps) == d;
        assert Survivors(s, d) == Survivors(init, d) + [x];
        assert Kept(s, keeps) == Kept(init, keeps) + [x];
      }
    }
  }

  /** What publish keeps is still ascending and within the handed-out ids. */
  lemma KeptInRange(s: seq<Subscriber>, keeps: set<nat>, idcnt: nat)
    requires StrictlyIncreasing(s)
    requires forall i | 0 <= i < |s| :: 1 <= s[i].id <= idcnt
    ensures StrictlyIncreasing(Kept(s, keeps))
    ensures forall i | 0 <= i < |Kept(s, keeps)| :: 1 <= Kept(s, keeps)[i].id <= idcnt
  {
    PublishSurvivors(s, keeps);
    SurvivorsIncreasing(s, DroppedIds(s, keeps));
    SurvivorsMembers(s, DroppedIds(s, keeps));
    var r := Kept(s, keeps);
    forall i | 0 <= i < |r|
      ensures 1 <= r[i].id <= idcnt
    {
      assert r[i] in s;
    }
  }

  /** Inserting at the lower bound keeps the list sorted. */
  lemma InsertSorted(u: seq<nat>, x: nat)
    requires Sorted(u)
    ensures Sorted(u[..LowerBound(u, x)] + [x] + u[LowerBound(u, x)..])
  {
    var p := LowerBound(u, x);
    var v := u[..p] + [x] + u[p..];
    forall a, b | 0 <= a <= b < |v|
      ensures v[a] <= v[b]
    {
      if a < p && b > p {
        assert v[b] == u[b - 1];
      } else if a > p {
        assert v[a] == u[a - 1] && v[b] == u[b - 1];
      } else if a == p && b > p {
        assert v[b] == u[b - 1];
      }
    }
  }

  /** The remove_if predicate of do_unsubscribe for one subscriber id:
      the iterator skips the smaller ids and consumes an equal one. */
  method MatchNext(u: seq<nat>, iter: nat, id: nat) returns (remove: bool, next: nat)
    requires Sorted(u) && iter <= |u|
    requires forall k | 0 <= k < iter :: u[k] < id
    ensures remove <==> id in u
    ensures iter <= next <= |u|
    ensures forall k | 0 <= k < next :: u[k] <= id
  {
    next := iter;
    while next < |u| && u[next] < id
      invariant iter <= next <= |u|
      invariant forall k | 0 <= k < next :: u[k] < id
    {
      next := next + 1;
    }
    remove := next < |u| && u[next] == id;
    assert id in u ==> remove by {
      if id in u {
        var k :| 0 <= k < |u| && u[k] == id;
        assert k >= next;
      }
    }
    if remove {
      next := next + 1;
    }
  }

  class Publisher {
    var subs: seq<Subscriber>
    /** `_unsubs`: ids waiting for removal, kept sorted. */
    var unsubs: seq<nat>
    var idcnt: nat
    /** `_inp`: a publish is in progress. */
    var inp: bool
    /** The subscriber callbacks called so far, in order. */
    var calls: seq<Call>

    /** Subscribers in ascending id order, all ids handed out by the
        counter; outside a publish nothing waits for removal. */
    ghost predicate Valid()
      reads this
    {
      StrictlyIncreasing(subs)
      && (forall i | 0 <= i < |subs| :: 1 <= subs[i].id <= idcnt)
      && Sorted(unsubs)
      && (!inp ==> unsubs == [])
    }

    constructor()
      ensures Valid() && subs == [] && unsubs == [] && idcnt == 0 && !inp && calls == []
    {
      subs := [];
      unsubs := [];
      idcnt := 0;
      inp := false;
      calls := [];
    }

    /** subscribe: the new subscriber gets `++idcnt` and goes to the end. */
    method Subscribe(cb: nat) returns (id: nat)
      requires Valid()
      modifies this`idcnt, this`subs
      ensures Valid()
      ensures id == old(idcnt) + 1 && idcnt == id
      ensures subs == old(subs) + [Subscriber(id, cb)]
    {
      idcnt := idcnt + 1;
      id := idcnt;
      subs := subs + [Subscriber(id, cb)];
    }

    /** empty: no subscribers. */
    function Empty(): (r: bool)
      reads this`subs
      ensures r <==> |subs| == 0
    {
      subs == []
    }

    /** do_unsubscribe: std::remove_if over the subscribers, its predicate
        advancing an iterator through the sorted ids in step; the removal
        list is then cleared. */
    method DoUnsubscribe()
      requires StrictlyIncreasing(subs) && Sorted(unsubs)
      modifies this`subs, this`unsubs
      ensures subs == Survivors(old(subs), old(unsubs)) && unsubs == []
    {
      var orig := subs;
      var u := unsubs;
      var a := new Subscriber[|orig|](i requires 0 <= i < |orig| => orig[i]);
      var iter := 0;
      var w := 0;
      var i := 0;
      while i < a.Length
        invariant 0 <= w <= i <= a.Length == |orig| && 0 <= iter <= |u|
        invariant forall k | i <= k < a.Length :: a[k] == orig[k]
        invariant a[..w] == Survivors(orig[..i], u)
        invariant forall k | 0 <= k < iter :: 0 < i && u[k] <= orig[i - 1].id
      {
        var s := a[i];
        var remove;
        remove, iter := MatchNext(u, iter, s.id);
        assert orig[..i + 1] == orig[..i] + [s];
        if !remove {
          a[w] := s;
          assert a[..w + 1] == a[..w] + [s];
          w := w + 1;
        }
        i := i + 1;
      }
      assert orig[..i] == orig;
      subs := a[..w];
      unsubs := [];
    }

    /** unsubscribe: the id goes in at its lower bound, so the list stays
        sorted; outside a publish the removal is applied at once. */
    method Unsubscribe(id: nat)
      requires Valid()
      modifies this`subs, this`unsubs
      ensures Valid()
      ensures var inserted := old(unsubs)[..LowerBound(old(unsubs), id)] + [id] + old(unsubs)[LowerBound(old(unsubs), id)..];
        if inp then subs == old(subs) && unsubs == inserted && Sorted(unsubs)
        else subs == Survivors(old(subs), inserted) && unsubs == []
    {
      var pos := LowerBound(unsubs, id);
      InsertSorted(unsubs, id);
      unsubs := unsubs[..pos] + [id] + unsubs[pos..];
      if !inp {
        ghost var before, dropped := subs, unsubs;
        DoUnsubscribe();
        SurvivorsIncreasing(before, dropped);
        SurvivorsMembers(before, dropped);
        forall i | 0 <= i < |subs|
          ensures 1 <= subs[i].id <= idcnt
        {
          assert subs[i] in before;
        }
      }
    }

    /** publish: every subscriber is called once with the data; those that
        answer false or throw (their ids are not in `keeps`) are removed.
        The result tells whether any subscriber is left. */
    method Publish(v: string, keeps: set<nat>) returns (more: bool)
      requires Valid() && !inp
      modifies this`inp, this`unsubs, this`subs, this`calls
      ensures Valid() && !inp
      ensures calls == old(calls) + Notified(old(subs), v)
      ensures subs == Kept(old(subs), keeps)
      ensures more <==> subs != []
    {
      inp := true;
      var i := 0;
      while i < |subs|
        invariant 0 <= i <= |subs| && subs == old(subs)
        invariant unsubs == DroppedIds(subs[..i], keeps)
        invariant calls == old(calls) + Notified(subs[..i], v)
      {
        assert subs[..i + 1][..i] == subs[..i];
        calls := calls + [Call(subs[i].cb, v)];
        if subs[i].id !in keeps {
          unsubs := unsubs + [subs[i].id];
        }
        i := i + 1;
      }
      assert subs[..i] == subs;
      DroppedIdsSorted(subs, keeps);
      PublishSurvivors(subs, keeps);
      DoUnsubscribe();
      inp := false;
      KeptInRange(old(subs), keeps, idcnt);
      more := subs != [];
    }

    /** reset: the subscribers are detached and each is called once with
        empty data; both lists end up empty. */
    method Reset()
      modifies this`subs, this`unsubs, this`calls
      ensures Valid()
      ensures subs == [] && unsubs == []
      ensures calls == old(calls) + Notified(old(subs), "")
    {
      var x := subs;
      subs := [];
      var i := 0;
      while i < |x|
        invariant 0 <= i <= |x| && subs == []
        invariant calls == old(calls) + Notified(x[..i], "")
      {
        assert x[..i + 1][..i] == x[..i];
        calls := calls + [Call(x[i].cb, "")];
        i := i + 1;
      }
      assert x[..i] == x;
      unsubs := [];
    }
  }
}
