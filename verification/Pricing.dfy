/** Cheapest-first order of providers for a request. */
module Pricing {
  import opened Common
  import opened Registry

  datatype TaskType = Sql | Etl | Insight

  /** The parts of a chat request that routing looks at. */
  datatype ChatRequest = ChatRequest(model: Option<string>, modelTier: Option<ModelTier>, taskType: Option<TaskType>)

  const DEFAULT_TASK_TO_TIER := map[Sql := Economy, Etl := Balanced, Insight := Flagship]

  function ResolveTier(q: ChatRequest, taskToTier: map<TaskType, ModelTier>): ModelTier {
    if q.modelTier.Some? then q.modelTier.value
    else if q.taskType.Some? && q.taskType.value in taskToTier then taskToTier[q.taskType.value]
    else Balanced
  }

  /** An explicit tier wins over the task, the task over nothing, and nothing asks for the middle. */
  lemma TierOfRequest(q: ChatRequest)
    ensures q.modelTier.Some? ==> ResolveTier(q, DEFAULT_TASK_TO_TIER) == q.modelTier.value
    ensures q.modelTier.None? && q.taskType == Some(Sql) ==> ResolveTier(q, DEFAULT_TASK_TO_TIER) == Economy
    ensures q.modelTier.None? && q.taskType == Some(Etl) ==> ResolveTier(q, DEFAULT_TASK_TO_TIER) == Balanced
    ensures q.modelTier.None? && q.taskType == Some(Insight) ==> ResolveTier(q, DEFAULT_TASK_TO_TIER) == Flagship
    ensures q.modelTier.None? && q.taskType.None? ==> ResolveTier(q, DEFAULT_TASK_TO_TIER) == Balanced
  {}

  /** The sort key of one provider for one request. */
  datatype Key = Key(output: real, input: real, name: string)

  predicate TextLeq(a: string, b: string) {
    a == "" || (b != "" && (a[0] < b[0] || (a[0] == b[0] && TextLeq(a[1..], b[1..]))))
  }

  predicate Leq(a: Key, b: Key) {
    a.output < b.output
    || (a.output == b.output && (a.input < b.input || (a.input == b.input && TextLeq(a.name, b.name))))
  }

  function PriceFor(specs: seq<ModelSpec>, model: string): (real, real) {
    if specs == [] then (0.0, 0.0)
    else if specs[0].name == model then (specs[0].inputCost, specs[0].outputCost)
    else PriceFor(specs[1..], model)
  }

  function SpecKey(s: ModelSpec): Key {
    Key(s.outputCost, s.inputCost, s.name)
  }

  function Cheapest(specs: seq<ModelSpec>): ModelSpec
    requires specs != []
  {
    if |specs| == 1 then specs[0]
    else
      var rest := Cheapest(specs[1..]);
      if Leq(SpecKey(specs[0]), SpecKey(rest)) then specs[0] else rest
  }

  function SortKey(p: Provider, q: ChatRequest): Key {
    if q.model.Some? then
      var price := PriceFor(p.specs, q.model.value);
      Key(price.1, price.0, p.name)
    else if p.specs == [] then Key(0.0, 0.0, p.name)
    else
      var s := Cheapest(p.specs);
      Key(s.outputCost, s.inputCost, p.name)
  }

  predicate NotDearer(a: Provider, b: Provider, q: ChatRequest) {
    Leq(SortKey(a, q), SortKey(b, q))
  }

  function Insert(p: Provider, sorted: seq<Provider>, q: ChatRequest): seq<Provider> {
    if sorted == [] || NotDearer(p, sorted[0], q) then [p] + sorted
    else [sorted[0]] + Insert(p, sorted[1..], q)
  }

  /** The library's stable sort. */
  function Sorted(providers: seq<Provider>, q: ChatRequest): seq<Provider> {
    if providers == [] then [] else Insert(providers[0], Sorted(providers[1..], q), q)
  }

  lemma {:induction false} TextOrder(a: string, b: string)
    ensures TextLeq(a, b) || TextLeq(b, a)
    ensures TextLeq(a, b) && TextLeq(b, a) ==> a == b
  {
    if a != "" && b != "" && a[0] == b[0] {
      TextOrder(a[1..], b[1..]);
      assert a == [a[0]] + a[1..] && b == [b[0]] + b[1..];
    }
  }

  lemma {:induction false} TextTransitive(a: string, b: string, c: string)
    requires TextLeq(a, b) && TextLeq(b, c)
    ensures TextLeq(a, c)
  {
    if a != "" && a[0] == b[0] && b[0] == c[0] {
      TextTransitive(a[1..], b[1..], c[1..]);
    }
  }

  lemma LeqIsAnOrder(a: Key, b: Key)
    ensures Leq(a, b) || Leq(b, a)
    ensures Leq(a, b) && Leq(b, a) ==> a == b
  {
    TextOrder(a.name, b.name);
  }

  lemma LeqTransitive(a: Key, b: Key, c: Key)
    requires Leq(a, b) && Leq(b, c)
    ensures Leq(a, c)
  {
    if a.output == b.output == c.output && a.input == b.input == c.input {
      TextTransitive(a.name, b.name, c.name);
    }
  }

  /** With no model named, a provider is priced at a model of its own that none of its others undercuts. */
  lemma {:induction false} CheapestIsLeast(specs: seq<ModelSpec>)
    requires specs != []
    ensures Cheapest(specs) in specs
    ensures forall s :: s in specs ==> Leq(SpecKey(Cheapest(specs)), SpecKey(s))
  {
    if |specs| == 1 {
      LeqIsAnOrder(SpecKey(specs[0]), SpecKey(specs[0]));
    } else {
      var rest := Cheapest(specs[1..]);
      CheapestIsLeast(specs[1..]);
      LeqIsAnOrder(SpecKey(specs[0]), SpecKey(rest));
      LeqIsAnOrder(SpecKey(specs[0]), SpecKey(specs[0]));
      forall s | s in specs
        ensures Leq(SpecKey(Cheapest(specs)), SpecKey(s))
      {
        if s in specs[1..] && Leq(SpecKey(specs[0]), SpecKey(rest)) {
          LeqTransitive(SpecKey(specs[0]), SpecKey(rest), SpecKey(s));
        }
      }
    }
  }

  ghost predicate CheapestFirst(chain: seq<Provider>, q: ChatRequest) {
    forall i, j :: 0 <= i < j < |chain| ==> NotDearer(chain[i], chain[j], q)
  }

  lemma {:induction false} InsertAdds(p: Provider, sorted: seq<Provider>, q: ChatRequest)
    ensures multiset(Insert(p, sorted, q)) == multiset(sorted) + multiset{p}
    ensures forall x :: x in Insert(p, sorted, q) <==> x == p || x in sorted
  {
    if sorted != [] && !NotDearer(p, sorted[0], q) {
      InsertAdds(p, sorted[1..], q);
      assert sorted == [sorted[0]] + sorted[1..];
    }
  }

  lemma {:induction false} InsertSorts(p: Provider, sorted: seq<Provider>, q: ChatRequest)
    requires CheapestFirst(sorted, q)
    ensures CheapestFirst(Insert(p, sorted, q), q)
  {
    var out := Insert(p, sorted, q);
    if sorted == [] {
    } else if NotDearer(p, sorted[0], q) {
      forall j | 0 < j < |out|
        ensures NotDearer(p, out[j], q)
      {
        if j > 1 {
          LeqTransitive(SortKey(p, q), SortKey(sorted[0], q), SortKey(out[j], q));
        }
      }
    } else {
      var rest := Insert(p, sorted[1..], q);
      LeqIsAnOrder(SortKey(p, q), SortKey(sorted[0], q));
      InsertSorts(p, sorted[1..], q);
      InsertAdds(p, sorted[1..], q);
      forall j | 0 <= j < |rest|
        ensures NotDearer(sorted[0], rest[j], q)
      {
        assert rest[j] in rest;
      }
    }
  }

  /** The chain is the candidates, each as often as before, cheapest first. */
  lemma {:induction false} SortedSorts(providers: seq<Provider>, q: ChatRequest)
    ensures CheapestFirst(Sorted(providers, q), q)
    ensures multiset(Sorted(providers, q)) == multiset(providers)
  {
    if providers != [] {
      SortedSorts(providers[1..], q);
      InsertSorts(providers[0], Sorted(providers[1..], q), q);
      InsertAdds(providers[0], Sorted(providers[1..], q), q);
      assert providers == [providers[0]] + providers[1..];
    }
  }
}
