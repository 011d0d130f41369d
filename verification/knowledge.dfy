/** Domain knowledge for a method: the text `load_knowledge` concatenates
    for the prompt, and the `StaticKnowledgeBase` that keeps the same files
    and ranks them against a query by keyword overlap.
 */
module Knowledge {
  import opened Wrappers
  import opened Text
  import opened Files
  import opened Numbers
  import opened Sorting

  /** Between two knowledge files in the prompt text. */
  const Divider := "\n\n---\n\n"

  /** `sorted(directory.glob("*" + ext))`, by name. */
  function NamesEndingIn(fs: Fs, dir: Path, ext: string): (r: seq<string>)
    requires IsDir(fs, dir)
    ensures forall i :: 0 <= i < |r| ==> r[i] in fs[dir] && EndsWith(r[i], ext)
    ensures forall n :: n in fs[dir] && EndsWith(n, ext) ==> n in r
    ensures StrictlySorted(r)
  {
    SortedSet(set n | n in fs[dir] && EndsWith(n, ext))
  }

  /** The names `load_knowledge` and `_load` visit: `.md` first, then `.txt`. */
  function KnowledgeNames(fs: Fs, dir: Path): (r: seq<string>)
    requires IsDir(fs, dir)
    ensures forall i :: 0 <= i < |r| ==> r[i] in fs[dir]
  {
    NamesEndingIn(fs, dir, ".md") + NamesEndingIn(fs, dir, ".txt")
  }

  function Contents(files: map<string, string>, names: seq<string>): (r: seq<string>)
    requires forall i :: 0 <= i < |names| ==> names[i] in files
    ensures |r| == |names|
    ensures forall i :: 0 <= i < |r| ==> r[i] == files[names[i]]
  {
    if names == [] then [] else [files[names[0]]] + Contents(files, names[1..])
  }

  /** `load_knowledge(directory)`: the files' text joined by dividers, or
      `""` when the directory does not exist. */
  function LoadKnowledge(fs: Fs, dir: Path): (r: string)
    ensures !IsDir(fs, dir) ==> r == ""
    ensures IsDir(fs, dir) && KnowledgeNames(fs, dir) == [] ==> r == ""
    ensures IsDir(fs, dir) && |KnowledgeNames(fs, dir)| == 1 ==> r == fs[dir][KnowledgeNames(fs, dir)[0]]
  {
    if !IsDir(fs, dir) then ""
    else
      var names := KnowledgeNames(fs, dir);
      Join(Contents(fs[dir], names), Divider)
  }

  // ---------------------------------------------------------------------
  // StaticKnowledgeBase
  // ---------------------------------------------------------------------

  /** A loaded file: `(str(filepath), content)`. */
  datatype Doc = Doc(source: string, content: string)

  /** A retrieved chunk; `score` is `None` when a knowledge base gives none. */
  datatype Chunk = Chunk(content: string, source: string, score: Option<real>)

  const StaticName := "static"

  function DocsOf(fs: Fs, dir: Path, names: seq<string>): (r: seq<Doc>)
    requires IsDir(fs, dir)
    requires forall i :: 0 <= i < |names| ==> names[i] in fs[dir]
    ensures |r| == |names|
    ensures forall i :: 0 <= i < |r| ==> r[i] == Doc(PathText(dir + [names[i]]), fs[dir][names[i]])
  {
    if names == [] then [] else [Doc(PathText(dir + [names[0]]), fs[dir][names[0]])] + DocsOf(fs, dir, names[1..])
  }

  /** `StaticKnowledgeBase(path)._documents`. */
  function LoadDocs(fs: Fs, dir: Path): (r: seq<Doc>)
    ensures !IsDir(fs, dir) ==> r == []
    ensures IsDir(fs, dir) ==> |r| == |KnowledgeNames(fs, dir)|
    ensures IsDir(fs, dir) ==> forall i :: 0 <= i < |r| ==>
      r[i].content == fs[dir][KnowledgeNames(fs, dir)[i]] && r[i].source == PathText(dir + [KnowledgeNames(fs, dir)[i]])
  {
    if !IsDir(fs, dir) then [] else DocsOf(fs, dir, KnowledgeNames(fs, dir))
  }

  function DocContents(docs: seq<Doc>): (r: seq<string>)
    ensures |r| == |docs|
    ensures forall i :: 0 <= i < |r| ==> r[i] == docs[i].content
  {
    if docs == [] then [] else [docs[0].content] + DocContents(docs[1..])
  }

  /** The prompt text `load_knowledge` builds is the static knowledge base's
      documents, in its order, joined by dividers. */
  lemma LoadKnowledgeIsDocs(fs: Fs, dir: Path)
    ensures LoadKnowledge(fs, dir) == Join(DocContents(LoadDocs(fs, dir)), Divider)
  {
    if IsDir(fs, dir) {
      var names := KnowledgeNames(fs, dir);
      assert Contents(fs[dir], names) == DocContents(LoadDocs(fs, dir));
    }
  }

  /** `set(text.lower().split())`. */
  function Tokens(text: string): set<string>
  {
    var words := SplitWs(Lower(text));
    set i | 0 <= i < |words| :: words[i]
  }

  /** How many of the query's tokens the text has. */
  function Overlap(query: set<string>, text: string): nat
  {
    |query * Tokens(text)|
  }

  /** A document with the number of query tokens it shares. */
  datatype Scored = Scored(overlap: nat, doc: Doc)

  /** The documents sharing at least one token with the query, in order. */
  function ScoreDocs(query: set<string>, docs: seq<Doc>): (r: seq<Scored>)
    ensures |r| <= |docs|
    ensures forall x :: x in r ==> x.doc in docs && x.overlap > 0 && x.overlap == Overlap(query, x.doc.content)
  {
    if docs == [] then []
    else
      var overlap := Overlap(query, docs[0].content);
      (if overlap > 0 then [Scored(overlap, docs[0])] else []) + ScoreDocs(query, docs[1..])
  }

  // ---------------------------------------------------------------------
  // the stable descending sort `scored.sort(key=..., reverse=True)`
  // ---------------------------------------------------------------------

  predicate Descending(s: seq<Scored>)
  {
    forall i, j :: 0 <= i < j < |s| ==> s[i].overlap >= s[j].overlap
  }

  /** Put `x` in front of the first element whose overlap is not greater. */
  function Insert(x: Scored, t: seq<Scored>): (r: seq<Scored>)
    ensures multiset(r) == multiset{x} + multiset(t)
    ensures |r| == |t| + 1
    ensures Descending(t) ==> Descending(r)
  {
    if t == [] then [x]
    else if t[0].overlap <= x.overlap then
      InsertFront(x, t);
      [x] + t
    else
      var rest := Insert(x, t[1..]);
      InsertBehind(x, t, rest);
      [t[0]] + rest
  }

  /** `x` goes in front of a head whose overlap is not greater. */
  lemma InsertFront(x: Scored, t: seq<Scored>)
    requires t != [] && t[0].overlap <= x.overlap
    ensures multiset([x] + t) == multiset{x} + multiset(t)
    ensures Descending(t) ==> Descending([x] + t)
  {
    var r := [x] + t;
    assert forall i :: 1 <= i < |r| ==> r[i] == t[i - 1];
  }

  /** `x` goes behind a head whose overlap is greater. */
  lemma InsertBehind(x: Scored, t: seq<Scored>, rest: seq<Scored>)
    requires t != [] && t[0].overlap > x.overlap
    requires multiset(rest) == multiset{x} + multiset(t[1..])
    requires Descending(t[1..]) ==> Descending(rest)
    ensures multiset([t[0]] + rest) == multiset{x} + multiset(t)
    ensures Descending(t) ==> Descending([t[0]] + rest)
  {
    assert t == [t[0]] + t[1..];
    var r := [t[0]] + rest;
    assert forall i :: 1 <= i < |r| ==> r[i] == rest[i - 1];
    if Descending(t) {
      DescendingTail(t);
      forall j | 0 <= j < |rest| ensures t[0].overlap >= rest[j].overlap {
        assert rest[j] in multiset(rest);
        assert rest[j] == x || rest[j] in multiset(t[1..]);
        if rest[j] != x {
          var k :| 0 <= k < |t[1..]| && t[1..][k] == rest[j];
          assert t[k + 1] == rest[j];
        }
      }
    }
  }

  /** Insertion sort, taking the elements from the right. */
  function SortDescending(s: seq<Scored>): (r: seq<Scored>)
    ensures multiset(r) == multiset(s)
    ensures |r| == |s|
    ensures Descending(r)
  {
    if s == [] then []
    else
      assert s == [s[0]] + s[1..];
      Insert(s[0], SortDescending(s[1..]))
  }

  /** The elements with a given overlap, in order. */
  function WithOverlap(s: seq<Scored>, k: nat): seq<Scored>
  {
    if s == [] then []
    else (if s[0].overlap == k then [s[0]] else []) + WithOverlap(s[1..], k)
  }

  lemma {:induction false} InsertWithOverlap(x: Scored, t: seq<Scored>, k: nat)
    requires Descending(t)
    ensures WithOverlap(Insert(x, t), k) == (if x.overlap == k then [x] else []) + WithOverlap(t, k)
  {
    if t == [] {
    } else if t[0].overlap <= x.overlap {
      var r := [x] + t;
      assert r[1..] == t;
    } else {
      DescendingTail(t);
      InsertWithOverlap(x, t[1..], k);
      InsertUnfold(x, t);
      assert t == [t[0]] + t[1..];
      InsertBehindHead(x, t[0], t[1..], Insert(x, t[1..]), k);
    }
  }

  /** A head with a larger overlap than `x` passes the filter ahead of `x` on both sides. */
  lemma InsertBehindHead(x: Scored, t0: Scored, tail: seq<Scored>, rest: seq<Scored>, k: nat)
    requires t0.overlap > x.overlap
    requires WithOverlap(rest, k) == (if x.overlap == k then [x] else []) + WithOverlap(tail, k)
    ensures WithOverlap([t0] + rest, k) == (if x.overlap == k then [x] else []) + WithOverlap([t0] + tail, k)
  {
    WithOverlapCons(t0, rest, k);
    WithOverlapCons(t0, tail, k);
    if x.overlap == k {
      // every element ahead of the insertion point has a larger overlap
      assert WithOverlap([t0] + rest, k) == WithOverlap(rest, k);
      assert WithOverlap([t0] + tail, k) == WithOverlap(tail, k);
    } else {
      assert WithOverlap(rest, k) == WithOverlap(tail, k);
    }
  }

  lemma InsertUnfold(x: Scored, t: seq<Scored>)
    requires t != [] && t[0].overlap > x.overlap
    ensures Insert(x, t) == [t[0]] + Insert(x, t[1..])
  {
  }

  lemma WithOverlapCons(a: Scored, s: seq<Scored>, k: nat)
    ensures WithOverlap([a] + s, k) == (if a.overlap == k then [a] else []) + WithOverlap(s, k)
  {
    assert ([a] + s)[1..] == s;
  }

  lemma DescendingTail(t: seq<Scored>)
    requires t != [] && Descending(t)
    ensures Descending(t[1..])
  {
    forall i, j | 0 <= i < j < |t[1..]| ensures t[1..][i].overlap >= t[1..][j].overlap {
      assert t[1..][i] == t[i + 1] && t[1..][j] == t[j + 1];
    }
  }

  /** The sort is stable: the elements with each overlap keep their order. */
  lemma {:induction false} SortStable(s: seq<Scored>, k: nat)
    ensures WithOverlap(SortDescending(s), k) == WithOverlap(s, k)
  {
    if s != [] {
      SortStable(s[1..], k);
      InsertWithOverlap(s[0], SortDescending(s[1..]), k);
    }
  }

  // ---------------------------------------------------------------------
  // retrieve
  // ---------------------------------------------------------------------

  /** `s[:k]` for any integer `k`. */
  function PySlice<T>(s: seq<T>, k: int): (r: seq<T>)
    ensures k >= 0 ==> r == s[..if k < |s| then k else |s|]
    ensures k < 0 ==> r == s[..if |s| + k > 0 then |s| + k else 0]
  {
    if k >= 0 then s[..if k < |s| then k else |s|]
    else s[..if |s| + k > 0 then |s| + k else 0]
  }

  lemma OverlapAtMost(a: set<string>, b: set<string>)
    ensures |a * b| <= |a|
  {
    assert a * b <= a;
    SubsetCard(a * b, a);
  }

  lemma {:induction false} SubsetCard(a: set<string>, b: set<string>)
    requires a <= b
    ensures |a| <= |b|
    decreases |b|
  {
    if a != {} {
      var x :| x in a;
      SubsetCard(a - {x}, b - {x});
    }
  }

  lemma RatioMonotone(x: nat, y: nat, q: nat)
    requires q >= 1 && x >= y
    ensures Ratio(x, q) >= Ratio(y, q)
  {
  }

  lemma RatioUnit(x: nat, q: nat)
    requires q >= 1 && 0 < x <= q
    ensures 0.0 < Ratio(x, q) <= 1.0
  {
    var a, b := x as real, q as real;
    var r := a / b;
    assert r * b == a;
    // multiplying by the positive `b` keeps the order
    assert r <= 0.0 ==> r * b <= 0.0 * b;
    assert r > 1.0 ==> r * b > 1.0 * b;
  }

  /** The chunks for the ranked documents that made the cut. */
  function ChunksOf(picked: seq<Scored>, query: set<string>, docs: seq<Doc>): (r: seq<Chunk>)
    requires |query| >= 1
    requires forall i :: 0 <= i < |picked| ==> 0 < picked[i].overlap <= |query|
    requires forall i :: 0 <= i < |picked| ==> picked[i].doc in docs && Overlap(query, picked[i].doc.content) > 0
    requires forall i :: 0 <= i < |picked| ==> picked[i].overlap == Overlap(query, picked[i].doc.content)
    requires Descending(picked)
    ensures |r| == |picked|
    ensures forall i :: 0 <= i < |r| ==> r[i].content == picked[i].doc.content && r[i].source == picked[i].doc.source
    ensures forall i :: 0 <= i < |r| ==> r[i].score.Some? && 0.0 < r[i].score.value <= 1.0
    ensures forall i, j :: 0 <= i < j < |r| ==> r[i].score.value >= r[j].score.value
    ensures forall i :: 0 <= i < |r| ==> Doc(r[i].source, r[i].content) in docs
    ensures forall i :: 0 <= i < |r| ==> Overlap(query, r[i].content) > 0
    ensures forall i :: 0 <= i < |r| ==> r[i].score == Some(Ratio(Overlap(query, r[i].content), |query|))
  {
    var r := seq(|picked|, i requires 0 <= i < |picked| =>
      Chunk(picked[i].doc.content, picked[i].doc.source, Some(Ratio(picked[i].overlap, |query|))));
    forall i | 0 <= i < |r| ensures 0.0 < r[i].score.value <= 1.0 {
      RatioUnit(picked[i].overlap, |query|);
    }
    forall i, j | 0 <= i < j < |r| ensures r[i].score.value >= r[j].score.value {
      RatioMonotone(picked[i].overlap, picked[j].overlap, |query|);
    }
    assert forall i :: 0 <= i < |r| ==> Doc(r[i].source, r[i].content) == picked[i].doc;
    r
  }

  /** `StaticKnowledgeBase.retrieve(query, top_k=top_k)`. */
  function Retrieve(docs: seq<Doc>, query: string, topK: int): (r: seq<Chunk>)
    ensures Tokens(query) == {} ==> r == []
    ensures topK >= 0 ==> |r| <= topK
    ensures forall i :: 0 <= i < |r| ==> r[i].score.Some? && 0.0 < r[i].score.value <= 1.0
    ensures forall i, j :: 0 <= i < j < |r| ==> r[i].score.value >= r[j].score.value
    ensures forall i :: 0 <= i < |r| ==> Doc(r[i].source, r[i].content) in docs
    ensures forall i :: 0 <= i < |r| ==> Overlap(Tokens(query), r[i].content) > 0
    ensures forall i :: 0 <= i < |r| ==>
      r[i].score == Some(Ratio(Overlap(Tokens(query), r[i].content), |Tokens(query)|))
  {
    var qt := Tokens(query);
    if qt == {} then []
    else
      var scored := ScoreDocs(qt, docs);
      var ranked := SortDescending(scored);
      var picked := PySlice(ranked, topK);
      RankedFacts(qt, docs, scored, ranked, picked);
      ChunksOf(picked, qt, docs)
  }

  lemma RankedFacts(qt: set<string>, docs: seq<Doc>, scored: seq<Scored>, ranked: seq<Scored>, picked: seq<Scored>)
    requires |qt| >= 1
    requires forall x :: x in scored ==> x.doc in docs && x.overlap > 0 && x.overlap == Overlap(qt, x.doc.content)
    requires multiset(ranked) == multiset(scored) && Descending(ranked)
    requires picked <= ranked
    ensures forall i :: 0 <= i < |picked| ==> 0 < picked[i].overlap <= |qt|
    ensures forall i :: 0 <= i < |picked| ==> picked[i].doc in docs && Overlap(qt, picked[i].doc.content) > 0
    ensures forall i :: 0 <= i < |picked| ==> picked[i].overlap == Overlap(qt, picked[i].doc.content)
    ensures Descending(picked)
  {
    forall i | 0 <= i < |picked|
      ensures 0 < picked[i].overlap <= |qt| && picked[i].doc in docs && Overlap(qt, picked[i].doc.content) > 0
      ensures picked[i].overlap == Overlap(qt, picked[i].doc.content)
    {
      assert picked[i] == ranked[i];
      assert ranked[i] in multiset(scored);
      OverlapAtMost(qt, Tokens(picked[i].doc.content));
      assert Overlap(qt, picked[i].doc.content) <= |qt|;
    }
  }

  lemma {:induction false} ScoreDocsComplete(query: set<string>, docs: seq<Doc>, d: Doc)
    requires d in docs && Overlap(query, d.content) > 0
    ensures Scored(Overlap(query, d.content), d) in ScoreDocs(query, docs)
  {
    if docs[0] != d {
      ScoreDocsComplete(query, docs[1..], d);
    }
  }

  /** Where a document sharing a token with the query sits in the ranking. */
  lemma RankedIndex(qt: set<string>, docs: seq<Doc>, d: Doc) returns (j: nat)
    requires d in docs && Overlap(qt, d.content) > 0
    ensures var ranked := SortDescending(ScoreDocs(qt, docs));
      j < |ranked| && ranked[j] == Scored(Overlap(qt, d.content), d)
  {
    var ranked := SortDescending(ScoreDocs(qt, docs));
    ScoreDocsComplete(qt, docs, d);
    assert Scored(Overlap(qt, d.content), d) in multiset(ranked);
    j :| 0 <= j < |ranked| && ranked[j] == Scored(Overlap(qt, d.content), d);
  }

  /** With `top_k` at least the number of documents, every document that
      shares a token with the query is retrieved. */
  lemma RetrieveComplete(docs: seq<Doc>, query: string, topK: int, d: Doc)
    requires topK >= |docs|
    requires d in docs && Overlap(Tokens(query), d.content) > 0
    ensures var r := Retrieve(docs, query, topK);
      exists i :: 0 <= i < |r| && r[i].source == d.source && r[i].content == d.content
  {
    var qt := Tokens(query);
    assert qt != {};
    var scored := ScoreDocs(qt, docs);
    var ranked := SortDescending(scored);
    var j := RankedIndex(qt, docs, d);
    assert |ranked| <= topK;
    assert PySlice(ranked, topK) == ranked;
    var r := Retrieve(docs, query, topK);
    RankedFacts(qt, docs, scored, ranked, ranked);
    assert r == ChunksOf(ranked, qt, docs);
    assert r[j].source == d.source && r[j].content == d.content;
  }

  /** The `top_k` cut keeps the best: a document sharing a token with the
      query that is left out only when `top_k` chunks were returned, each of
      which shares at least as many tokens as it does. */
  lemma RetrieveTopK(docs: seq<Doc>, query: string, topK: int, d: Doc)
    requires topK >= 0
    requires d in docs && Overlap(Tokens(query), d.content) > 0
    requires var r := Retrieve(docs, query, topK);
      forall i :: 0 <= i < |r| ==> Doc(r[i].source, r[i].content) != d
    ensures |Retrieve(docs, query, topK)| == topK
    ensures var r := Retrieve(docs, query, topK);
      forall i :: 0 <= i < |r| ==> Overlap(Tokens(query), r[i].content) >= Overlap(Tokens(query), d.content)
  {
    var qt, ranked, picked := RetrievePicked(docs, query, topK);
    var j := RankedIndex(qt, docs, d);
    CutBehind(qt, ranked, picked, Retrieve(docs, query, topK), topK, j);
  }

  /** The chunks `Retrieve` returns are those of the first `top_k` ranked documents. */
  lemma RetrievePicked(docs: seq<Doc>, query: string, topK: int) returns (qt: set<string>, ranked: seq<Scored>, picked: seq<Scored>)
    requires Tokens(query) != {}
    ensures qt == Tokens(query) && ranked == SortDescending(ScoreDocs(qt, docs)) && picked == PySlice(ranked, topK)
    ensures var r := Retrieve(docs, query, topK);
      |r| == |picked| && forall i :: 0 <= i < |picked| ==> Doc(r[i].source, r[i].content) == picked[i].doc
    ensures forall i :: 0 <= i < |picked| ==> picked[i].overlap == Overlap(qt, picked[i].doc.content)
  {
    qt := Tokens(query);
    var scored := ScoreDocs(qt, docs);
    ranked := SortDescending(scored);
    picked := PySlice(ranked, topK);
    RankedFacts(qt, docs, scored, ranked, picked);
    assert Retrieve(docs, query, topK) == ChunksOf(picked, qt, docs);
  }

  /** A scored document at position `j` of the ranking whose document no
      chunk carries lies behind the cut. */
  lemma CutBehind(qt: set<string>, ranked: seq<Scored>, picked: seq<Scored>, r: seq<Chunk>, topK: int, j: nat)
    requires topK >= 0 && picked == PySlice(ranked, topK) && Descending(ranked)
    requires j < |ranked| && ranked[j].overlap == Overlap(qt, ranked[j].doc.content)
    requires |r| == |picked|
    requires forall i :: 0 <= i < |picked| ==> Doc(r[i].source, r[i].content) == picked[i].doc
    requires forall i :: 0 <= i < |picked| ==> picked[i].overlap == Overlap(qt, picked[i].doc.content)
    requires forall i :: 0 <= i < |r| ==> Doc(r[i].source, r[i].content) != ranked[j].doc
    ensures |r| == topK
    ensures forall i :: 0 <= i < |r| ==> Overlap(qt, r[i].content) >= ranked[j].overlap
  {
    assert |picked| <= j;
    forall i | 0 <= i < |r| ensures Overlap(qt, r[i].content) >= ranked[j].overlap {
      assert picked[i] == ranked[i] && i < j;
      assert Doc(r[i].source, r[i].content) == picked[i].doc;
    }
  }

  // ---------------------------------------------------------------------
  // ties keep the documents' order
  // ---------------------------------------------------------------------

  /** The documents sharing exactly `k` tokens with the query, in order. */
  function TiedDocs(qt: set<string>, docs: seq<Doc>, k: nat): (r: seq<Doc>)
    ensures forall i :: 0 <= i < |r| ==> r[i] in docs && Overlap(qt, r[i].content) == k
  {
    if docs == [] then []
    else (if Overlap(qt, docs[0].content) == k then [docs[0]] else []) + TiedDocs(qt, docs[1..], k)
  }

  /** The documents of the chunks sharing exactly `k` tokens, in order. */
  function TiedChunks(qt: set<string>, r: seq<Chunk>, k: nat): seq<Doc>
  {
    if r == [] then []
    else (if Overlap(qt, r[0].content) == k then [Doc(r[0].source, r[0].content)] else []) + TiedChunks(qt, r[1..], k)
  }

  function DocsOfScored(s: seq<Scored>): (r: seq<Doc>)
    ensures |r| == |s| && forall i :: 0 <= i < |s| ==> r[i] == s[i].doc
  {
    seq(|s|, i requires 0 <= i < |s| => s[i].doc)
  }

  lemma {:induction false} ScoreDocsTies(qt: set<string>, docs: seq<Doc>, k: nat)
    requires k >= 1
    ensures DocsOfScored(WithOverlap(ScoreDocs(qt, docs), k)) == TiedDocs(qt, docs, k)
  {
    if docs != [] {
      var overlap := Overlap(qt, docs[0].content);
      var head := if overlap > 0 then [Scored(overlap, docs[0])] else [];
      var tail := ScoreDocs(qt, docs[1..]);
      assert ScoreDocs(qt, docs) == head + tail;
      ScoreDocsTies(qt, docs[1..], k);
      WithOverlapAppend(head, tail, k);
      DocsOfScoredAppend(WithOverlap(head, k), WithOverlap(tail, k));
      if overlap > 0 {
        WithOverlapCons(Scored(overlap, docs[0]), [], k);
      }
    }
  }

  lemma {:induction false} WithOverlapAppend(a: seq<Scored>, b: seq<Scored>, k: nat)
    ensures WithOverlap(a + b, k) == WithOverlap(a, k) + WithOverlap(b, k)
  {
    if a != [] {
      assert a + b == [a[0]] + (a[1..] + b) && a == [a[0]] + a[1..];
      WithOverlapAppend(a[1..], b, k);
      WithOverlapCons(a[0], a[1..] + b, k);
      WithOverlapCons(a[0], a[1..], k);
    } else {
      assert a + b == b;
    }
  }

  lemma DocsOfScoredAppend(a: seq<Scored>, b: seq<Scored>)
    ensures DocsOfScored(a + b) == DocsOfScored(a) + DocsOfScored(b)
  {
  }

  lemma {:induction false} WithOverlapPrefix(p: seq<Scored>, s: seq<Scored>, k: nat)
    requires p <= s
    ensures WithOverlap(p, k) <= WithOverlap(s, k)
  {
    if p != [] {
      assert s[1..][..|p| - 1] == p[1..];
      WithOverlapPrefix(p[1..], s[1..], k);
      WithOverlapCons(p[0], p[1..], k);
      WithOverlapCons(s[0], s[1..], k);
      assert p == [p[0]] + p[1..] && s == [s[0]] + s[1..];
    }
  }

  /** Chunks built one for one from scored documents tie as those do. */
  lemma {:induction false} ChunkTies(qt: set<string>, r: seq<Chunk>, p: seq<Scored>, k: nat)
    requires |r| == |p|
    requires forall i :: 0 <= i < |p| ==> Doc(r[i].source, r[i].content) == p[i].doc
    requires forall i :: 0 <= i < |p| ==> p[i].overlap == Overlap(qt, p[i].doc.content)
    ensures TiedChunks(qt, r, k) == DocsOfScored(WithOverlap(p, k))
  {
    if p != [] {
      ChunkTies(qt, r[1..], p[1..], k);
      WithOverlapCons(p[0], p[1..], k);
      assert p == [p[0]] + p[1..];
      DocsOfScoredAppend(if p[0].overlap == k then [p[0]] else [], WithOverlap(p[1..], k));
    }
  }

  /** Chunks of equal score come in the order of their documents, and the
      `top_k` cut drops ties from the end only: for each overlap, the
      returned documents with it are a prefix of all documents with it. */
  lemma RetrieveStable(docs: seq<Doc>, query: string, topK: int, k: nat)
    requires k >= 1
    ensures TiedChunks(Tokens(query), Retrieve(docs, query, topK), k) <= TiedDocs(Tokens(query), docs, k)
  {
    var qt := Tokens(query);
    var r := Retrieve(docs, query, topK);
    if qt != {} {
      var scored := ScoreDocs(qt, docs);
      var ranked := SortDescending(scored);
      var picked := PySlice(ranked, topK);
      RankedFacts(qt, docs, scored, ranked, picked);
      assert r == ChunksOf(picked, qt, docs);
      ChunkTies(qt, r, picked, k);
      WithOverlapPrefix(picked, ranked, k);
      SortStable(scored, k);
      ScoreDocsTies(qt, docs, k);
      var a, b := WithOverlap(picked, k), WithOverlap(ranked, k);
      assert DocsOfScored(a) == DocsOfScored(b)[..|a|];
    }
  }
}
