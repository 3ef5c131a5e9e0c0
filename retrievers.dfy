/**
 * `HybridRetriever`: several retrievers queried in turn, each hit's score
 * scaled by its retriever's weight and tagged with the retriever's class
 * name, all hits stably sorted by descending score and cut to a limit.
 */
module Retrievers {
  import opened Base
  import opened DataModels

  /** A wrapped retriever: its class name and its (opaque) lookup. */
  datatype Retriever = Retriever(className: string, invoke: string -> seq<Document>)

  const WeightCountMismatch := "Number of weights must match number of retrievers"

  /**
   * The weights in force: given non-empty weights must match the retrievers
   * one for one; absent or empty weights mean 1.0 for every retriever.
   */
  function EffectiveWeights(count: nat, weights: Option<seq<real>>): (r: Result<seq<real>, Raised>)
    ensures r.Failure? <==> weights.Some? && |weights.value| > 0 && |weights.value| != count
    ensures r.Failure? ==> r.error == ValueError(WeightCountMismatch)
    ensures r.Success? ==> |r.value| == count
    ensures r.Success? && weights.Some? && |weights.value| > 0 ==> r.value == weights.value
    ensures r.Success? && (weights.None? || |weights.value| == 0) ==>
      forall i :: 0 <= i < count ==> r.value[i] == 1.0
  {
    if weights.Some? && |weights.value| > 0 then
      if |weights.value| != count then Failure(ValueError(WeightCountMismatch))
      else Success(weights.value)
    else Success(seq(count, _ => 1.0))
  }

  /** A value Python can multiply by a float. */
  predicate Numeric(v: Value) {
    v.Int? || v.Num?
  }

  function AsReal(v: Value): real
    requires Numeric(v)
  {
    if v.Int? then v.i as real else v.r
  }

  /**
   * One hit after weighting: a score, when present, is multiplied by the
   * weight (a non-numeric score raises TypeError); then the retriever's class
   * name is stored under "retriever". Nothing else changes.
   */
  function Reweigh(d: Document, weight: real, name: string): (r: Result<Document, Raised>)
    ensures r.Failure? <==> "score" in d.metadata && !Numeric(d.metadata["score"])
    ensures r.Failure? ==> r.error == TypeError
    ensures r.Success? ==> r.value.pageContent == d.pageContent
    ensures r.Success? ==> r.value.metadata.Keys == d.metadata.Keys + {"retriever"}
    ensures r.Success? ==> r.value.metadata["retriever"] == Str(name)
    ensures r.Success? && "score" in d.metadata ==>
      r.value.metadata["score"] == Num(AsReal(d.metadata["score"]) * weight)
    ensures r.Success? ==> forall key :: key in d.metadata && key != "score" && key != "retriever" ==>
      r.value.metadata[key] == d.metadata[key]
  {
    if "score" in d.metadata && !Numeric(d.metadata["score"]) then Failure(TypeError)
    else
      var scaled := if "score" in d.metadata
        then d.metadata["score" := Num(AsReal(d.metadata["score"]) * weight)]
        else d.metadata;
      Success(Document(d.pageContent, scaled["retriever" := Str(name)]))
  }

  /** Weighting a retriever's hits in order; the first failure is raised. */
  function ReweighAll(docs: seq<Document>, weight: real, name: string): (r: Result<seq<Document>, Raised>)
    ensures r.Success? ==> |r.value| == |docs|
    ensures r.Success? ==> forall i :: 0 <= i < |docs| ==> Reweigh(docs[i], weight, name) == Success(r.value[i])
    ensures r.Failure? <==> exists i :: 0 <= i < |docs| && Reweigh(docs[i], weight, name).Failure?
    decreases |docs|
  {
    if |docs| == 0 then Success([])
    else
      match ReweighAll(docs[..|docs| - 1], weight, name)
      case Failure(e) => Failure(e)
      case Success(prefix) =>
        match Reweigh(docs[|docs| - 1], weight, name)
        case Failure(e) => Failure(e)
        case Success(d) => Success(prefix + [d])
  }

  /** Weighting one more hit: its failure is the failure of the prefix pass, its success extends it. */
  lemma ReweighAllStep(docs: seq<Document>, j: nat, weight: real, name: string, weighted: seq<Document>)
    requires j < |docs| && ReweighAll(docs[..j], weight, name) == Success(weighted)
    ensures Reweigh(docs[j], weight, name).Failure? ==>
      ReweighAll(docs[..j + 1], weight, name) == Failure(Reweigh(docs[j], weight, name).error)
    ensures Reweigh(docs[j], weight, name).Success? ==>
      ReweighAll(docs[..j + 1], weight, name) == Success(weighted + [Reweigh(docs[j], weight, name).value])
  {
    assert docs[..j + 1][..j] == docs[..j];
    assert docs[..j + 1][j] == docs[j];
  }

  /** A failure while weighting a prefix is the failure of the whole list. */
  lemma {:induction false} ReweighAllFailurePersists(docs: seq<Document>, j: nat, weight: real, name: string)
    requires j <= |docs|
    requires ReweighAll(docs[..j], weight, name).Failure?
    ensures ReweighAll(docs, weight, name) == ReweighAll(docs[..j], weight, name)
    decreases |docs| - j
  {
    if j < |docs| {
      assert docs[..j + 1][..j] == docs[..j];
      ReweighAllFailurePersists(docs, j + 1, weight, name);
    } else {
      assert docs[..j] == docs;
    }
  }

  /** Number of hits the retrievers return for the query, altogether. */
  function Total(rs: seq<Retriever>, query: string): nat
    decreases |rs|
  {
    if |rs| == 0 then 0 else Total(rs[..|rs| - 1], query) + |rs[|rs| - 1].invoke(query)|
  }

  /**
   * The document is hit `h` of retriever `j` after weighting, and so carries
   * that retriever's class name.
   */
  predicate WeightedHit(d: Document, rs: seq<Retriever>, ws: seq<real>, query: string, j: int, h: int) {
    0 <= j < |rs| && j < |ws| && 0 <= h < |rs[j].invoke(query)| &&
    Reweigh(rs[j].invoke(query)[h], ws[j], rs[j].className) == Success(d) &&
    "retriever" in d.metadata && d.metadata["retriever"] == Str(rs[j].className)
  }

  /** The document is a weighted hit of some retriever, tagged with that retriever's own class name. */
  ghost predicate FromOwnRetriever(d: Document, rs: seq<Retriever>, ws: seq<real>, query: string) {
    exists j, h :: WeightedHit(d, rs, ws, query, j, h)
  }

  /** Every score present is a number. */
  predicate NumericScores(docs: seq<Document>) {
    forall i :: 0 <= i < |docs| && "score" in docs[i].metadata ==> Numeric(docs[i].metadata["score"])
  }

  /**
   * The hits of all retrievers, retriever by retriever, each retriever asked
   * once with the query and its hits weighted in order.
   */
  function Gather(rs: seq<Retriever>, ws: seq<real>, query: string): (r: Result<seq<Document>, Raised>)
    requires |ws| == |rs|
    ensures r.Success? ==> |r.value| == Total(rs, query)
    ensures r.Success? ==> NumericScores(r.value)
    decreases |rs|
  {
    if |rs| == 0 then Success([])
    else
      var n := |rs| - 1;
      match Gather(rs[..n], ws[..n], query)
      case Failure(e) => Failure(e)
      case Success(prefix) =>
        match ReweighAll(rs[n].invoke(query), ws[n], rs[n].className)
        case Failure(e) => Failure(e)
        case Success(docs) =>
          GatherStep(rs, ws, query, prefix, docs);
          Success(prefix + docs)
  }

  /** Adding the last retriever's weighted hits keeps every score numeric. */
  lemma GatherStep(rs: seq<Retriever>, ws: seq<real>, query: string, prefix: seq<Document>, docs: seq<Document>)
    requires |ws| == |rs| > 0
    requires NumericScores(prefix)
    requires ReweighAll(rs[|rs| - 1].invoke(query), ws[|rs| - 1], rs[|rs| - 1].className) == Success(docs)
    ensures NumericScores(prefix + docs)
  {
    var n := |rs| - 1;
    var hits := rs[n].invoke(query);
    forall i | 0 <= i < |docs|
      ensures "score" in docs[i].metadata ==> Numeric(docs[i].metadata["score"])
    {
      assert Reweigh(hits[i], ws[n], rs[n].className) == Success(docs[i]);
    }
    forall i | 0 <= i < |prefix + docs|
      ensures "score" in (prefix + docs)[i].metadata ==> Numeric((prefix + docs)[i].metadata["score"])
    {
      if i >= |prefix| {
        assert (prefix + docs)[i] == docs[i - |prefix|];
      }
    }
  }

  /** Every gathered hit is a weighted hit of some retriever, tagged with that retriever's own class name. */
  lemma {:induction false} GatherTraced(rs: seq<Retriever>, ws: seq<real>, query: string)
    requires |ws| == |rs|
    requires Gather(rs, ws, query).Success?
    ensures forall i :: 0 <= i < |Gather(rs, ws, query).value| ==> FromOwnRetriever(Gather(rs, ws, query).value[i], rs, ws, query)
    decreases |rs|
  {
    if |rs| > 0 {
      var n := |rs| - 1;
      var prefix := Gather(rs[..n], ws[..n], query).value;
      var docs := ReweighAll(rs[n].invoke(query), ws[n], rs[n].className).value;
      GatherTraced(rs[..n], ws[..n], query);
      TracedStep(rs, ws, query, prefix, docs);
    }
  }

  /** Adding the last retriever's weighted hits keeps every hit traced to its own retriever. */
  lemma TracedStep(rs: seq<Retriever>, ws: seq<real>, query: string, prefix: seq<Document>, docs: seq<Document>)
    requires |ws| == |rs| > 0
    requires forall i :: 0 <= i < |prefix| ==> FromOwnRetriever(prefix[i], rs[..|rs| - 1], ws[..|rs| - 1], query)
    requires ReweighAll(rs[|rs| - 1].invoke(query), ws[|rs| - 1], rs[|rs| - 1].className) == Success(docs)
    ensures forall i :: 0 <= i < |prefix + docs| ==> FromOwnRetriever((prefix + docs)[i], rs, ws, query)
  {
    var n := |rs| - 1;
    var hits := rs[n].invoke(query);
    forall i | 0 <= i < |prefix + docs| ensures FromOwnRetriever((prefix + docs)[i], rs, ws, query) {
      if i < |prefix| {
        var j, h :| WeightedHit(prefix[i], rs[..n], ws[..n], query, j, h);
        assert rs[..n][j] == rs[j] && ws[..n][j] == ws[j];
        assert WeightedHit((prefix + docs)[i], rs, ws, query, j, h);
      } else {
        var h := i - |prefix|;
        assert Reweigh(hits[h], ws[n], rs[n].className) == Success(docs[h]);
        assert WeightedHit((prefix + docs)[i], rs, ws, query, n, h);
      }
    }
  }

  /**
   * The gathered hits are the retrievers' weighted hits concatenated in
   * retriever order: the hits of retriever `j`, weighted and tagged by it,
   * sit right after all hits of the retrievers before it.
   */
  lemma GatherBlock(rs: seq<Retriever>, ws: seq<real>, query: string, j: nat)
    requires |ws| == |rs| && j < |rs|
    requires Gather(rs, ws, query).Success?
    ensures ReweighAll(rs[j].invoke(query), ws[j], rs[j].className).Success?
    ensures Total(rs[..j], query) + |rs[j].invoke(query)| <= |Gather(rs, ws, query).value|
    ensures Gather(rs, ws, query).value[Total(rs[..j], query)..Total(rs[..j], query) + |rs[j].invoke(query)|] ==
      ReweighAll(rs[j].invoke(query), ws[j], rs[j].className).value
  {
    GatherChain(rs, ws, query);
    Chained(Prefixes(rs, ws, query), Blocks(rs, ws, query), |rs|, j);
    ChainEnds(rs, ws, query, j);
  }

  /** What the chain's entries are: all hits at the end, `Total` hits before retriever `j`, and `j`'s weighted hits. */
  lemma ChainEnds(rs: seq<Retriever>, ws: seq<real>, query: string, j: nat)
    requires |ws| == |rs| && j < |rs|
    requires Gather(rs, ws, query).Success?
    ensures Prefixes(rs, ws, query)[|rs|] == Gather(rs, ws, query).value
    ensures |Prefixes(rs, ws, query)[j]| == Total(rs[..j], query)
    ensures ReweighAll(rs[j].invoke(query), ws[j], rs[j].className).Success?
    ensures Blocks(rs, ws, query)[j] == ReweighAll(rs[j].invoke(query), ws[j], rs[j].className).value
  {
    GatherStepHits(rs, ws, query, j);
    assert rs[..|rs|] == rs && ws[..|ws|] == ws;
  }

  /** The hits of the first `i` retrievers, for each `i` up to all of them. */
  function Prefixes(rs: seq<Retriever>, ws: seq<real>, query: string): (ps: seq<seq<Document>>)
    requires |ws| == |rs|
    ensures |ps| == |rs| + 1
  {
    seq(|rs| + 1, i requires 0 <= i <= |rs| => Hits(Gather(rs[..i], ws[..i], query)))
  }

  /** Each retriever's weighted hits. */
  function Blocks(rs: seq<Retriever>, ws: seq<real>, query: string): (bs: seq<seq<Document>>)
    requires |ws| == |rs|
    ensures |bs| == |rs|
  {
    seq(|rs|, i requires 0 <= i < |rs| => Hits(ReweighAll(rs[i].invoke(query), ws[i], rs[i].className)))
  }

  /** When all retrievers succeed, the combined hits grow one retriever's block at a time. */
  lemma GatherChain(rs: seq<Retriever>, ws: seq<real>, query: string)
    requires |ws| == |rs|
    requires Gather(rs, ws, query).Success?
    ensures forall i :: 0 <= i < |rs| ==>
      Prefixes(rs, ws, query)[i + 1] == Prefixes(rs, ws, query)[i] + Blocks(rs, ws, query)[i]
  {
    forall i | 0 <= i < |rs|
      ensures Prefixes(rs, ws, query)[i + 1] == Prefixes(rs, ws, query)[i] + Blocks(rs, ws, query)[i]
    {
      GatherStepHits(rs, ws, query, i);
    }
  }

  /** The hits of a successful pass, or none. */
  function Hits(r: Result<seq<Document>, Raised>): seq<Document> {
    if r.Success? then r.value else []
  }

  /**
   * When all retrievers succeed, so do the first `i` and retriever `i`, and
   * the hits of the first `i + 1` are those of the first `i`, then retriever `i`'s.
   */
  lemma GatherStepHits(rs: seq<Retriever>, ws: seq<real>, query: string, i: nat)
    requires |ws| == |rs| && i < |rs|
    requires Gather(rs, ws, query).Success?
    ensures Gather(rs[..i], ws[..i], query).Success?
    ensures |Gather(rs[..i], ws[..i], query).value| == Total(rs[..i], query)
    ensures ReweighAll(rs[i].invoke(query), ws[i], rs[i].className).Success?
    ensures Gather(rs[..i + 1], ws[..i + 1], query) ==
      Success(Gather(rs[..i], ws[..i], query).value + ReweighAll(rs[i].invoke(query), ws[i], rs[i].className).value)
  {
    if Gather(rs[..i + 1], ws[..i + 1], query).Failure? {
      GatherFailurePersists(rs, ws, query, i + 1);
      assert false;
    }
    var rs', ws' := rs[..i + 1], ws[..i + 1];
    assert rs'[..i] == rs[..i] && ws'[..i] == ws[..i] && rs'[i] == rs[i] && ws'[i] == ws[i];
  }

  /**
   * A list built by appending blocks one after another holds block `j`
   * right after the list as it stood before that block.
   */
  lemma {:induction false} Chained<T>(prefixes: seq<seq<T>>, blocks: seq<seq<T>>, m: nat, j: nat)
    requires |prefixes| == |blocks| + 1
    requires forall i :: 0 <= i < |blocks| ==> prefixes[i + 1] == prefixes[i] + blocks[i]
    requires j < m <= |blocks|
    ensures |prefixes[j]| + |blocks[j]| <= |prefixes[m]|
    ensures prefixes[m][|prefixes[j]|..|prefixes[j]| + |blocks[j]|] == blocks[j]
    decreases m
  {
    var a, b := |prefixes[j]|, |prefixes[j]| + |blocks[j]|;
    assert prefixes[m] == prefixes[m - 1] + blocks[m - 1];
    if j < m - 1 {
      Chained(prefixes, blocks, m - 1, j);
      SliceOfFront(prefixes[m - 1], blocks[m - 1], a, b);
    } else {
      SliceOfBack(prefixes[j], blocks[j]);
    }
  }

  /** The back of a concatenation, sliced out by its position. */
  lemma SliceOfBack<T>(front: seq<T>, back: seq<T>)
    ensures (front + back)[|front|..|front| + |back|] == back
  {
  }

  /** A slice that lies within the front of a concatenation is a slice of the front. */
  lemma SliceOfFront<T>(front: seq<T>, back: seq<T>, a: nat, b: nat)
    requires a <= b <= |front|
    ensures (front + back)[a..b] == front[a..b]
  {
  }

  /** A failure of the first retrievers is the failure of the whole gathering. */
  lemma {:induction false} GatherFailurePersists(rs: seq<Retriever>, ws: seq<real>, query: string, i: nat)
    requires |ws| == |rs| && i <= |rs|
    requires Gather(rs[..i], ws[..i], query).Failure?
    ensures Gather(rs, ws, query) == Gather(rs[..i], ws[..i], query)
    decreases |rs| - i
  {
    if i < |rs| {
      assert rs[..i + 1][..i] == rs[..i] && ws[..i + 1][..i] == ws[..i];
      GatherFailurePersists(rs, ws, query, i + 1);
    } else {
      assert rs[..i] == rs && ws[..i] == ws;
    }
  }

  /** The sort key: `metadata.get("score", 0)`. */
  function Score(d: Document): real {
    if "score" in d.metadata && Numeric(d.metadata["score"]) then AsReal(d.metadata["score"]) else 0.0
  }

  /** Scores never increase along the list. */
  predicate Descending(s: seq<Document>) {
    forall i, j :: 0 <= i < j < |s| ==> Score(s[i]) >= Score(s[j])
  }

  /** Place `d` after every element scoring at least as high (so ties keep arrival order). */
  function Insert(d: Document, sorted: seq<Document>): (r: seq<Document>)
    ensures multiset(r) == multiset(sorted) + multiset{d}
    ensures |r| == |sorted| + 1
    decreases |sorted|
  {
    if |sorted| == 0 then [d]
    else if Score(sorted[0]) >= Score(d) then
      assert sorted == [sorted[0]] + sorted[1..];
      [sorted[0]] + Insert(d, sorted[1..])
    else [d] + sorted
  }

  /** `sorted(docs, key=score, reverse=True)`: a stable sort by descending score. */
  function SortByScore(s: seq<Document>): (r: seq<Document>)
    ensures multiset(r) == multiset(s)
    ensures |r| == |s|
    decreases |s|
  {
    if |s| == 0 then []
    else
      assert s == s[..|s| - 1] + [s[|s| - 1]];
      Insert(s[|s| - 1], SortByScore(s[..|s| - 1]))
  }

  lemma {:induction false} InsertDescending(d: Document, sorted: seq<Document>)
    requires Descending(sorted)
    ensures Descending(Insert(d, sorted))
    decreases |sorted|
  {
    if |sorted| > 0 && Score(sorted[0]) >= Score(d) {
      var tail := sorted[1..];
      var rest := Insert(d, tail);
      InsertDescending(d, tail);
      var r := [sorted[0]] + rest;
      forall i, j | 0 <= i < j < |r| ensures Score(r[i]) >= Score(r[j]) {
        if i == 0 {
          assert r[j] in multiset(rest);
          assert r[j] == d || r[j] in tail;
        }
      }
    }
  }

  /** The sort yields a list ordered by non-increasing score. */
  lemma {:induction false} SortDescending(s: seq<Document>)
    ensures Descending(SortByScore(s))
    decreases |s|
  {
    if |s| > 0 {
      SortDescending(s[..|s| - 1]);
      InsertDescending(s[|s| - 1], SortByScore(s[..|s| - 1]));
    }
  }

  /** The elements scoring exactly `v`, in list order. */
  function WithScore(s: seq<Document>, v: real): seq<Document>
    decreases |s|
  {
    if |s| == 0 then [] else (if Score(s[0]) == v then [s[0]] else []) + WithScore(s[1..], v)
  }

  lemma {:induction false} WithScoreAppend(a: seq<Document>, b: seq<Document>, v: real)
    ensures WithScore(a + b, v) == WithScore(a, v) + WithScore(b, v)
    decreases |a|
  {
    if |a| > 0 {
      assert (a + b)[1..] == a[1..] + b;
      WithScoreAppend(a[1..], b, v);
    } else {
      assert a + b == b;
    }
  }

  lemma {:induction false} WithScoreNone(s: seq<Document>, v: real)
    requires forall i :: 0 <= i < |s| ==> Score(s[i]) < v
    ensures WithScore(s, v) == []
    decreases |s|
  {
    if |s| > 0 {
      WithScoreNone(s[1..], v);
    }
  }

  lemma {:induction false} InsertStable(d: Document, sorted: seq<Document>, v: real)
    requires Descending(sorted)
    ensures WithScore(Insert(d, sorted), v) == WithScore(sorted, v) + (if Score(d) == v then [d] else [])
    decreases |sorted|
  {
    if |sorted| == 0 {
      WithScoreSingle(d, v);
    } else if Score(sorted[0]) >= Score(d) {
      var tail := sorted[1..];
      DescendingTail(sorted);
      InsertStable(d, tail, v);
      KeepHead(sorted[0], tail, Insert(d, tail), if Score(d) == v then [d] else [], v);
      assert [sorted[0]] + tail == sorted;
    } else {
      InsertFront(d, sorted, v);
    }
  }

  /** A suffix of a descending list is descending. */
  lemma DescendingTail(s: seq<Document>)
    requires |s| > 0 && Descending(s)
    ensures Descending(s[1..])
  {
    forall i, j | 0 <= i < j < |s| - 1 ensures Score(s[1..][i]) >= Score(s[1..][j]) {
      assert s[1..][i] == s[i + 1] && s[1..][j] == s[j + 1];
    }
  }

  /** The same head in front of two lists whose `v`-scored elements differ by a suffix `h`. */
  lemma KeepHead(head: Document, tail: seq<Document>, rest: seq<Document>, h: seq<Document>, v: real)
    requires WithScore(rest, v) == WithScore(tail, v) + h
    ensures WithScore([head] + rest, v) == WithScore([head] + tail, v) + h
  {
    assert ([head] + rest)[1..] == rest;
    assert ([head] + tail)[1..] == tail;
    var x := if Score(head) == v then [head] else [];
    assert x + (WithScore(tail, v) + h) == (x + WithScore(tail, v)) + h;
  }

  /** A document scoring above the whole descending list goes in front. */
  lemma InsertFront(d: Document, sorted: seq<Document>, v: real)
    requires Descending(sorted) && |sorted| > 0 && Score(sorted[0]) < Score(d)
    ensures WithScore([d] + sorted, v) == WithScore(sorted, v) + (if Score(d) == v then [d] else [])
  {
    assert ([d] + sorted)[1..] == sorted;
    if Score(d) == v {
      forall i | 0 <= i < |sorted| ensures Score(sorted[i]) < v {
        if i > 0 {
          assert Score(sorted[0]) >= Score(sorted[i]);
        }
      }
      WithScoreNone(sorted, v);
    }
  }

  /**
   * The sort is stable: for every score, the elements with that score keep
   * their original relative order.
   */
  lemma {:induction false} SortStable(s: seq<Document>, v: real)
    ensures WithScore(SortByScore(s), v) == WithScore(s, v)
    decreases |s|
  {
    if |s| > 0 {
      var init, last := s[..|s| - 1], s[|s| - 1];
      var sortedInit := SortByScore(init);
      var h := if Score(last) == v then [last] else [];
      assert s == init + [last];
      assert SortByScore(s) == Insert(last, sortedInit);
      SortDescending(init);
      InsertStable(last, sortedInit, v);
      SortStable(init, v);
      WithScoreSingle(last, v);
      WithScoreAppend(init, [last], v);
    }
  }

  lemma WithScoreSingle(d: Document, v: real)
    ensures WithScore([d], v) == if Score(d) == v then [d] else []
  {
    assert [d][1..] == [];
  }

  /** `docs[:limit]`, Python slice semantics (a negative limit counts from the end). */
  function Take(docs: seq<Document>, limit: int): (r: seq<Document>)
    ensures |r| == if limit >= 0 then (if limit < |docs| then limit else |docs|)
                   else (if |docs| + limit > 0 then |docs| + limit else 0)
    ensures r == docs[..|r|]
  {
    if limit >= 0 then docs[..if limit < |docs| then limit else |docs|]
    else docs[..if |docs| + limit > 0 then |docs| + limit else 0]
  }

  /** What `HybridRetriever.retrieve` returns or raises. */
  function HybridRetrieve(rs: seq<Retriever>, ws: seq<real>, query: string, limit: int): Result<seq<Document>, Raised>
    requires |ws| == |rs|
  {
    match Gather(rs, ws, query)
    case Failure(e) => Failure(e)
    case Success(all) => Success(Take(SortByScore(all), limit))
  }

  /**
   * What a successful retrieval promises: as many documents as the limit allows
   * out of all hits, every one tagged with its retriever, ordered by
   * non-increasing score; and it fails exactly when gathering fails.
   */
  lemma HybridRetrieveResult(rs: seq<Retriever>, ws: seq<real>, query: string, limit: int)
    requires |ws| == |rs|
    ensures HybridRetrieve(rs, ws, query, limit).Failure? <==> Gather(rs, ws, query).Failure?
    ensures HybridRetrieve(rs, ws, query, limit).Success? ==>
      var r := HybridRetrieve(rs, ws, query, limit).value;
      var n := Total(rs, query);
      && |r| == (if limit >= 0 then (if limit < n then limit else n) else (if n + limit > 0 then n + limit else 0))
      && (forall i :: 0 <= i < |r| ==> FromOwnRetriever(r[i], rs, ws, query))
      && Descending(r)
      && multiset(r) <= multiset(Gather(rs, ws, query).value)
  {
    if Gather(rs, ws, query).Success? {
      GatherTraced(rs, ws, query);
      TakeSorted(Gather(rs, ws, query).value, rs, ws, query, limit);
    }
  }

  /** A prefix of the sorted hits is still ordered, still tagged, and drawn from the hits. */
  lemma TakeSorted(all: seq<Document>, rs: seq<Retriever>, ws: seq<real>, query: string, limit: int)
    requires forall i :: 0 <= i < |all| ==> FromOwnRetriever(all[i], rs, ws, query)
    ensures var r := Take(SortByScore(all), limit);
      && (forall i :: 0 <= i < |r| ==> FromOwnRetriever(r[i], rs, ws, query))
      && Descending(r)
      && multiset(r) <= multiset(all)
  {
    var sorted := SortByScore(all);
    SortDescending(all);
    var r := Take(sorted, limit);
    assert sorted == r + sorted[|r|..];
    assert multiset(sorted) == multiset(r) + multiset(sorted[|r|..]);
    DrawnKeepsOwn(r, all, rs, ws, query);
  }

  /** Documents drawn from weighted hits are weighted hits of their own retrievers. */
  lemma DrawnKeepsOwn(r: seq<Document>, all: seq<Document>, rs: seq<Retriever>, ws: seq<real>, query: string)
    requires forall i :: 0 <= i < |all| ==> FromOwnRetriever(all[i], rs, ws, query)
    requires multiset(r) <= multiset(all)
    ensures forall i :: 0 <= i < |r| ==> FromOwnRetriever(r[i], rs, ws, query)
  {
    forall i | 0 <= i < |r| ensures FromOwnRetriever(r[i], rs, ws, query) {
      assert r[i] in multiset(all);
      var j :| 0 <= j < |all| && all[j] == r[i];
    }
  }

  /** `HybridRetriever`, once its weights are settled. */
  class HybridRetriever {
    var retrievers: seq<Retriever>
    var weights: seq<real>

    ghost predicate Valid()
      reads this
    {
      |weights| == |retrievers|
    }

    constructor (retrievers: seq<Retriever>, weights: seq<real>)
      requires |weights| == |retrievers|
      ensures Valid() && this.retrievers == retrievers && this.weights == weights
    {
      this.retrievers := retrievers;
      this.weights := weights;
    }

    /** `retrieve(query, limit)`; the limit defaults to 4. */
    method Retrieve(query: string, limit: int := 4) returns (r: Result<seq<Document>, Raised>)
      requires Valid()
      ensures r == HybridRetrieve(retrievers, weights, query, limit)
    {
      var all: seq<Document> := [];
      var i := 0;
      while i < |retrievers|
        invariant 0 <= i <= |retrievers|
        invariant Gather(retrievers[..i], weights[..i], query) == Success(all)
      {
        var retriever, weight := retrievers[i], weights[i];
        var docs := retriever.invoke(query);
        var weighted := WeighAll(docs, weight, retriever.className);
        assert retrievers[..i + 1][..i] == retrievers[..i] && weights[..i + 1][..i] == weights[..i];
        if weighted.Failure? {
          GatherFailurePersists(retrievers, weights, query, i + 1);
          return Failure(weighted.error);
        }
        all := all + weighted.value;
        i := i + 1;
      }
      assert retrievers[..i] == retrievers && weights[..i] == weights;
      r := Success(Take(SortByScore(all), limit));
    }
  }

  /** The inner loop of `retrieve`: weight and tag one retriever's hits in place, in order. */
  method WeighAll(docs: seq<Document>, weight: real, name: string) returns (r: Result<seq<Document>, Raised>)
    ensures r == ReweighAll(docs, weight, name)
  {
    var weighted: seq<Document> := [];
    var j := 0;
    while j < |docs|
      invariant 0 <= j <= |docs|
      invariant ReweighAll(docs[..j], weight, name) == Success(weighted)
    {
      var d := Reweigh(docs[j], weight, name);
      ReweighAllStep(docs, j, weight, name, weighted);
      if d.Failure? {
        ReweighAllFailurePersists(docs, j + 1, weight, name);
        return Failure(d.error);
      }
      weighted := weighted + [d.value];
      j := j + 1;
    }
    assert docs[..j] == docs;
    r := Success(weighted);
  }

  /** `HybridRetriever(retrievers, weights)`: raises ValueError on a weight-count mismatch. */
  method NewHybridRetriever(retrievers: seq<Retriever>, weights: Option<seq<real>>)
    returns (r: Result<HybridRetriever, Raised>)
    ensures r.Failure? <==> weights.Some? && |weights.value| > 0 && |weights.value| != |retrievers|
    ensures r.Failure? ==> r.error == ValueError(WeightCountMismatch)
    ensures r.Success? ==> fresh(r.value) && r.value.Valid() && r.value.retrievers == retrievers
    ensures r.Success? ==> EffectiveWeights(|retrievers|, weights) == Success(r.value.weights)
  {
    match EffectiveWeights(|retrievers|, weights)
    case Failure(e) =>
      r := Failure(e);
    case Success(ws) =>
      var h := new HybridRetriever(retrievers, ws);
      r := Success(h);
  }
}
