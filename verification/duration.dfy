/** The "/ N min" figure in the footer of the first step: the minutes the selected services take. */
module Duration {
  import opened Types
  import opened Seqs
  import Selection

  /** The loaded services whose id occurs in the selection, in list order (a filter on the services list). */
  function Chosen(services: seq<Service>, selected: seq<int>): (r: seq<Service>)
    ensures forall s :: s in r <==> s in services && s.id in selected
    ensures forall s :: multiset(r)[s] == (if s.id in selected then multiset(services)[s] else 0)
    ensures IsSubsequence(r, services)
    ensures selected == [] ==> r == []
  {
    if services == [] then []
    else
      assert services == [services[0]] + services[1..];
      var rest := Chosen(services[1..], selected);
      if services[0].id in selected then
        assert ([services[0]] + rest)[1..] == rest;
        [services[0]] + rest
      else
        assert rest != [] ==> rest[0] in rest;
        rest
  }

  /** Adds the durations to the accumulator from the front of the list to the back, as the source's
      reduce does; the result is the accumulator plus the reference sum of the list. */
  function Reduce(acc: int, xs: seq<Service>): (r: int)
    ensures r == acc + DurationOf(xs, set s | s in xs :: s.id)
    decreases |xs|
  {
    if xs == [] then acc
    else
      SumOverOwnIds(xs);
      Reduce(acc + xs[0].avgDuration, xs[1..])
  }

  /** The footer total. `services` is None until the services list has loaded. The source's
      fallback to 0 only matters for a missing list, since 0 is the only falsy integer sum. */
  function TotalDuration(services: Option<seq<Service>>, selected: seq<int>): (r: int)
    ensures services.None? || selected == [] ==> r == 0
  {
    match services
    case None => 0
    case Some(svcs) =>
      Reduce(0, Chosen(svcs, selected))
  }

  /** Reference definition: the sum of `avgDuration` over the services of the list whose id is in `ids`. */
  function DurationOf(services: seq<Service>, ids: set<int>): int {
    if services == [] then 0
    else (if services[0].id in ids then services[0].avgDuration else 0) + DurationOf(services[1..], ids)
  }

  /** Summing a list over all of its own ids is the same as summing over the ids of its tail plus its head. */
  lemma SumOverOwnIds(xs: seq<Service>)
    requires xs != []
    ensures DurationOf(xs, set s | s in xs :: s.id)
         == xs[0].avgDuration + DurationOf(xs[1..], set s | s in xs[1..] :: s.id)
  {
    AllIdsAgree(xs[1..], set s | s in xs :: s.id, set s | s in xs[1..] :: s.id);
  }

  /** Two id sets that both contain every id of the list give the same sum. */
  lemma {:induction false} AllIdsAgree(xs: seq<Service>, a: set<int>, b: set<int>)
    requires forall s | s in xs :: s.id in a && s.id in b
    ensures DurationOf(xs, a) == DurationOf(xs, b)
  {
    if xs != [] {
      assert xs[0] in xs;
      AllIdsAgree(xs[1..], a, b);
    }
  }

  /** Two id sets that agree on the ids of the list give the same sum. */
  lemma {:induction false} IdsAgree(xs: seq<Service>, a: set<int>, b: set<int>)
    requires forall s | s in xs :: s.id in a <==> s.id in b
    ensures DurationOf(xs, a) == DurationOf(xs, b)
  {
    if xs != [] {
      assert xs[0] in xs;
      IdsAgree(xs[1..], a, b);
    }
  }

  /** Summing the filtered list over all its ids is summing the whole list over the selected ids. */
  lemma {:induction false} ChosenSum(svcs: seq<Service>, selected: seq<int>)
    ensures DurationOf(Chosen(svcs, selected), Elems(selected)) == DurationOf(svcs, Elems(selected))
  {
    if svcs != [] {
      ChosenSum(svcs[1..], selected);
    }
  }

  /** The footer total is the sum of `avgDuration` over the loaded services whose id is selected. */
  lemma TotalDurationIsSum(svcs: seq<Service>, selected: seq<int>)
    ensures TotalDuration(Some(svcs), selected) == DurationOf(svcs, Elems(selected))
  {
    var chosen := Chosen(svcs, selected);
    IdsAgree(chosen, set s | s in chosen :: s.id, Elems(selected));
    ChosenSum(svcs, selected);
  }

  /** The total depends only on which ids are selected, not on their order or repetition. */
  lemma TotalDurationOrderFree(services: Option<seq<Service>>, a: seq<int>, b: seq<int>)
    requires Elems(a) == Elems(b)
    ensures TotalDuration(services, a) == TotalDuration(services, b)
  {
    if services.Some? {
      TotalDurationIsSum(services.value, a);
      TotalDurationIsSum(services.value, b);
    }
  }

  /** Summing over disjoint id sets adds up. */
  lemma {:induction false} DurationOfSplit(xs: seq<Service>, a: set<int>, b: set<int>)
    requires a !! b
    ensures DurationOf(xs, a + b) == DurationOf(xs, a) + DurationOf(xs, b)
  {
    if xs != [] {
      DurationOfSplit(xs[1..], a, b);
    }
  }

  /** A click on a service card moves the total by the minutes of the services carrying that id:
      up when it is selected, down when it is deselected. */
  lemma ToggleMovesTotal(svcs: seq<Service>, selected: seq<int>, id: int)
    ensures id !in selected ==>
      TotalDuration(Some(svcs), Selection.Toggle(selected, id))
        == TotalDuration(Some(svcs), selected) + DurationOf(svcs, {id})
    ensures id in selected ==>
      TotalDuration(Some(svcs), Selection.Toggle(selected, id))
        == TotalDuration(Some(svcs), selected) - DurationOf(svcs, {id})
  {
    var after := Selection.Toggle(selected, id);
    TotalDurationIsSum(svcs, selected);
    TotalDurationIsSum(svcs, after);
    if id !in selected {
      assert Elems(after) == Elems(selected) + {id};
      DurationOfSplit(svcs, Elems(selected), {id});
    } else {
      assert Elems(selected) == Elems(after) + {id};
      DurationOfSplit(svcs, Elems(after), {id});
    }
  }

  /** With no negative durations, the total is at least 0 and at most the sum over every loaded service. */
  lemma TotalDurationBounds(svcs: seq<Service>, selected: seq<int>)
    requires forall s | s in svcs :: s.avgDuration >= 0
    ensures 0 <= TotalDuration(Some(svcs), selected) <= DurationOf(svcs, set s | s in svcs :: s.id)
  {
    TotalDurationIsSum(svcs, selected);
    SubsetBounds(svcs, Elems(selected), set s | s in svcs :: s.id);
  }

  lemma {:induction false} SubsetBounds(xs: seq<Service>, a: set<int>, all: set<int>)
    requires forall s | s in xs :: s.avgDuration >= 0 && s.id in all
    ensures 0 <= DurationOf(xs, a) <= DurationOf(xs, all)
  {
    if xs != [] {
      assert xs[0] in xs;
      SubsetBounds(xs[1..], a, all);
    }
  }
}
