/** Position-bounded retrieval: filter, rank, collapse duplicates, attach the text. */
module Retrieval {
  import opened Ingestion
  import opened Sequences
  import opened Shared

  /** The reader's row for a document: the page reached, and the document's own spoiler setting. */
  datatype Position = Position(currentPage: int, spoilerSafe: Option<bool>)

  datatype Request = Request(
    owner: UserId,
    document: Option<DocumentId>,
    includeUnread: bool,
    limit: Option<nat>,
    perQuery: Option<bool>,
    userDefault: bool)

  /** A search hit. Payloads written before digests existed have none. */
  datatype Hit = Hit(id: ChunkId, score: real, digest: Option<string>, payload: Payload)

  datatype Passage = Passage(
    id: ChunkId,
    document: DocumentId,
    text: string,
    score: real,
    pageStart: int,
    pageEnd: int,
    title: string)

  // --------------------------------------------------------------- the bound

  function SpoilerOn(row: Option<Position>, request: Request): bool {
    ResolveSpoilerSafe(request.perQuery, if row.Some? then row.value.spoilerSafe else None, request.userDefault)
  }

  /** The last page whose chunks may be returned, or none for an unbounded search. */
  function ReadRangeBound(row: Option<Position>, request: Request): Option<int> {
    if request.document.None? then None
    else if request.includeUnread && !SpoilerOn(row, request) then None
    else Some(if row.Some? then row.value.currentPage else 0)
  }

  // --------------------------------------------------------------- the index

  predicate Matches(payload: Payload, owner: UserId, document: Option<DocumentId>, bound: Option<int>) {
    payload.owner == owner &&
    (document.Some? ==> payload.document == document.value) &&
    (bound.Some? ==> payload.pageEnd <= bound.value)
  }

  /** The points a search may return: always the owner's, and inside the bound. */
  function Candidates(points: map<ChunkId, Point>, owner: UserId, document: Option<DocumentId>, bound: Option<int>):
    map<ChunkId, Point>
  {
    map id | id in points && Matches(points[id].payload, owner, document, bound) :: points[id]
  }

  ghost predicate BestOf(points: map<ChunkId, Point>, score: Vector -> real, id: ChunkId) {
    id in points && forall other :: other in points ==> score(points[other].vector) <= score(points[id].vector)
  }

  lemma {:induction false} BestExists(points: map<ChunkId, Point>, score: Vector -> real, ids: set<ChunkId>)
    returns (best: ChunkId)
    requires ids != {} && ids <= points.Keys
    ensures best in ids && forall other :: other in ids ==> score(points[other].vector) <= score(points[best].vector)
    decreases ids
  {
    var x :| x in ids;
    best := x;
    var rest := ids - {x};
    if rest != {} {
      var y := BestExists(points, score, rest);
      if score(points[x].vector) <= score(points[y].vector) {
        best := y;
      }
      forall other | other in ids
        ensures score(points[other].vector) <= score(points[best].vector)
      {
        assert other == x || other in rest;
      }
    } else {
      assert ids == {x};
    }
  }

  lemma NotEmpty(points: map<ChunkId, Point>)
    requires points != map[]
    ensures points.Keys != {}
  {
  }

  ghost function Best(points: map<ChunkId, Point>, score: Vector -> real): (best: ChunkId)
    requires points != map[]
    ensures BestOf(points, score, best)
  {
    NotEmpty(points);
    assert exists id :: BestOf(points, score, id) by {
      var id := BestExists(points, score, points.Keys);
      assert BestOf(points, score, id);
    }
    var id :| BestOf(points, score, id);
    id
  }

  /** The `limit` best candidates, best first. Which of two equally good ones comes first is left to the index. */
  ghost function TopK(points: map<ChunkId, Point>, score: Vector -> real, limit: nat): (hits: seq<Hit>)
    ensures |hits| <= limit
    ensures forall k :: 0 <= k < |hits| ==>
              hits[k].id in points && hits[k].payload == points[hits[k].id].payload &&
              hits[k].digest == Some(hits[k].payload.contentHash) &&
              hits[k].score == score(points[hits[k].id].vector)
    decreases limit
  {
    if limit == 0 || points == map[] then []
    else
      var id := Best(points, score);
      var point := points[id];
      [Hit(id, score(point.vector), Some(point.payload.contentHash), point.payload)] +
      TopK(points - {id}, score, limit - 1)
  }

  // -------------------------------------------------------------- collapsing

  predicate Repeats(seen: seq<Hit>, hit: Hit) {
    hit.digest.Some? && exists k :: 0 <= k < |seen| && seen[k].digest == hit.digest
  }

  /** Each hit whose digest no earlier hit carries. */
  function Collapsed(hits: seq<Hit>): seq<Hit> {
    if hits == [] then []
    else
      var last := |hits| - 1;
      if Repeats(hits[..last], hits[last]) then Collapsed(hits[..last]) else Collapsed(hits[..last]) + [hits[last]]
  }

  /** Positions in a sequence of `n`, in order. */
  predicate Positions(picks: seq<nat>, n: nat) {
    (forall k :: 0 <= k < |picks| ==> picks[k] < n) && forall i, j :: 0 <= i < j < |picks| ==> picks[i] < picks[j]
  }

  /** No hit before position `j` has its digest; without a digest it repeats nothing. */
  predicate Unrepeated(hits: seq<Hit>, j: nat)
    requires j < |hits|
  {
    hits[j].digest.None? || forall i :: 0 <= i < j ==> hits[i].digest != hits[j].digest
  }

  /** What is kept of the hits stood at `picks`: in their order, just those that repeat no digest. */
  ghost predicate KeptFrom(hits: seq<Hit>, kept: seq<Hit>, picks: seq<nat>) {
    |picks| == |kept| && Positions(picks, |hits|) &&
    (forall k :: 0 <= k < |kept| ==> kept[k] == hits[picks[k]]) &&
    forall j :: 0 <= j < |hits| ==> (j in picks <==> Unrepeated(hits, j))
  }

  lemma PickMore(picks: seq<nat>, n: nat)
    requires Positions(picks, n)
    ensures Positions(picks, n + 1) && Positions(picks + [n], n + 1) && n !in picks
    ensures forall j: nat :: j in picks + [n] <==> j in picks || j == n
  {
    assert forall j: nat :: j in picks + [n] <==> j in picks || j in [n];
  }

  lemma {:induction false} CollapsedInOrder(hits: seq<Hit>) returns (picks: seq<nat>)
    ensures KeptFrom(hits, Collapsed(hits), picks)
  {
    if hits == [] {
      picks := [];
    } else {
      var n := |hits| - 1;
      picks := CollapsedInOrder(hits[..n]);
      RepeatsMeans(hits);
      KeptMore(hits, Collapsed(hits[..n]), picks);
      hide Repeats, KeptFrom;
      if !Repeats(hits[..n], hits[n]) {
        picks := picks + [n];
      }
    }
  }

  lemma KeptMore(hits: seq<Hit>, kept: seq<Hit>, picks: seq<nat>)
    requires hits != [] && KeptFrom(hits[..|hits| - 1], kept, picks)
    ensures var n := |hits| - 1;
            if Unrepeated(hits, n) then KeptFrom(hits, kept + [hits[n]], picks + [n]) else KeptFrom(hits, kept, picks)
  {
    var n := |hits| - 1;
    PickMore(picks, n);
    SameUnrepeated(hits, n);
    hide Unrepeated;
    assert forall k :: 0 <= k < n ==> hits[..n][k] == hits[k];
  }

  lemma SameUnrepeated(hits: seq<Hit>, n: nat)
    requires n <= |hits|
    ensures forall j :: 0 <= j < n ==> Unrepeated(hits[..n], j) == Unrepeated(hits, j)
  {
  }

  lemma RepeatsMeans(hits: seq<Hit>)
    requires hits != []
    ensures Repeats(hits[..|hits| - 1], hits[|hits| - 1]) <==> !Unrepeated(hits, |hits| - 1)
  {
    var n := |hits| - 1;
    assert forall i :: 0 <= i < n ==> hits[..n][i] == hits[i];
  }

  /** Drop every hit whose digest an earlier one has. */
  method CollapseDuplicates(hits: seq<Hit>) returns (collapsed: seq<Hit>)
    ensures collapsed == Collapsed(hits)
    ensures exists picks :: KeptFrom(hits, collapsed, picks)
  {
    ghost var picks := CollapsedInOrder(hits);
    hide KeptFrom;
    var seen: set<string> := {};
    collapsed := [];
    for i := 0 to |hits|
      invariant collapsed == Collapsed(hits[..i])
      invariant forall digest :: digest in seen <==> exists k :: 0 <= k < i && hits[k].digest == Some(digest)
    {
      var hit := hits[i];
      assert hits[..i + 1][..i] == hits[..i];
      assert Repeats(hits[..i], hit) <==> hit.digest.Some? && hit.digest.value in seen;
      if hit.digest.Some? && hit.digest.value in seen {
      } else {
        if hit.digest.Some? {
          seen := seen + {hit.digest.value};
        }
        collapsed := collapsed + [hit];
      }
    }
    TakeAll(hits);
  }

  // --------------------------------------------------------------- hydrating

  function PassageOf(hit: Hit, text: string): Passage {
    Passage(hit.id, hit.payload.document, text, hit.score,
            hit.payload.pageStart, hit.payload.pageEnd, hit.payload.title)
  }

  /** The owner's rows for these ids; another user's rows do not come back. */
  predicate RowFound(rows: map<ChunkId, ChunkRow>, owner: UserId, id: ChunkId) {
    id in rows && rows[id].owner == owner
  }

  /** Hits with the text of their rows, in rank order; a hit without a row is dropped. */
  function Hydrated(hits: seq<Hit>, rows: map<ChunkId, ChunkRow>, owner: UserId): seq<Passage> {
    if hits == [] then []
    else
      var last := |hits| - 1;
      var front := Hydrated(hits[..last], rows, owner);
      if RowFound(rows, owner, hits[last].id) then front + [PassageOf(hits[last], rows[hits[last].id].chunk.text)]
      else front
  }

  /** The passage shows this hit: its row's text, and its own document, score, pages and title. */
  predicate Shows(passage: Passage, hit: Hit, rows: map<ChunkId, ChunkRow>) {
    hit.id in rows && passage.id == hit.id && passage.text == rows[hit.id].chunk.text && passage.score == hit.score &&
    passage.document == hit.payload.document && passage.pageStart == hit.payload.pageStart &&
    passage.pageEnd == hit.payload.pageEnd && passage.title == hit.payload.title
  }

  /** The passages show, in hit order, just the hits that have a row of the owner's. */
  ghost predicate ShownFrom(hits: seq<Hit>, rows: map<ChunkId, ChunkRow>, owner: UserId, passages: seq<Passage>,
                            picks: seq<nat>)
  {
    |picks| == |passages| && Positions(picks, |hits|) &&
    (forall k :: 0 <= k < |passages| ==> Shows(passages[k], hits[picks[k]], rows)) &&
    forall j :: 0 <= j < |hits| ==> (j in picks <==> hits[j].id in rows && rows[hits[j].id].owner == owner)
  }

  lemma {:induction false} HydratedInOrder(hits: seq<Hit>, rows: map<ChunkId, ChunkRow>, owner: UserId)
    returns (picks: seq<nat>)
    ensures ShownFrom(hits, rows, owner, Hydrated(hits, rows, owner), picks)
  {
    if hits == [] {
      picks := [];
    } else {
      var n := |hits| - 1;
      var front := hits[..n];
      picks := HydratedInOrder(front, rows, owner);
      HydratedStep(hits, rows, owner);
      ShownCount(front, rows, owner, Hydrated(front, rows, owner), picks);
      hide Hydrated, Shows, ShownFrom;
      if RowFound(rows, owner, hits[n].id) {
        ShownOneMore(hits, rows, owner, Hydrated(front, rows, owner), picks, Hydrated(hits, rows, owner)[|picks|]);
        picks := picks + [n];
      } else {
        ShownNoMore(hits, rows, owner, Hydrated(front, rows, owner), picks);
      }
    }
  }

  lemma ShownCount(hits: seq<Hit>, rows: map<ChunkId, ChunkRow>, owner: UserId, passages: seq<Passage>,
                   picks: seq<nat>)
    requires ShownFrom(hits, rows, owner, passages, picks)
    ensures |picks| == |passages|
  {
  }

  lemma ShownOneMore(hits: seq<Hit>, rows: map<ChunkId, ChunkRow>, owner: UserId, passages: seq<Passage>,
                     picks: seq<nat>, passage: Passage)
    requires hits != [] && ShownFrom(hits[..|hits| - 1], rows, owner, passages, picks)
    requires RowFound(rows, owner, hits[|hits| - 1].id) && Shows(passage, hits[|hits| - 1], rows)
    ensures ShownFrom(hits, rows, owner, passages + [passage], picks + [|hits| - 1])
  {
    hide Shows;
    var n := |hits| - 1;
    PickMore(picks, n);
    assert forall k :: 0 <= k < n ==> hits[..n][k] == hits[k];
  }

  lemma ShownNoMore(hits: seq<Hit>, rows: map<ChunkId, ChunkRow>, owner: UserId, passages: seq<Passage>,
                    picks: seq<nat>)
    requires hits != [] && ShownFrom(hits[..|hits| - 1], rows, owner, passages, picks)
    requires !RowFound(rows, owner, hits[|hits| - 1].id)
    ensures ShownFrom(hits, rows, owner, passages, picks)
  {
    hide Shows;
    var n := |hits| - 1;
    PickMore(picks, n);
    assert forall k :: 0 <= k < n ==> hits[..n][k] == hits[k];
  }

  lemma HydratedStep(hits: seq<Hit>, rows: map<ChunkId, ChunkRow>, owner: UserId)
    requires hits != []
    ensures var last := hits[|hits| - 1];
            if RowFound(rows, owner, last.id) then
              var passage := PassageOf(last, rows[last.id].chunk.text);
              Hydrated(hits, rows, owner) == Hydrated(hits[..|hits| - 1], rows, owner) + [passage] &&
              Shows(passage, last, rows)
            else Hydrated(hits, rows, owner) == Hydrated(hits[..|hits| - 1], rows, owner)
  {
  }

  /** Attach the texts, reading the rows of all hits at once. */
  method Hydrate(hits: seq<Hit>, rows: map<ChunkId, ChunkRow>, owner: UserId) returns (passages: seq<Passage>)
    ensures passages == Hydrated(hits, rows, owner)
    ensures exists picks :: ShownFrom(hits, rows, owner, passages, picks)
  {
    ghost var picks := HydratedInOrder(hits, rows, owner);
    hide ShownFrom;
    var wanted := set k | 0 <= k < |hits| :: hits[k].id;
    var byId := map id | id in wanted && RowFound(rows, owner, id) :: rows[id];
    passages := [];
    for i := 0 to |hits|
      invariant passages == Hydrated(hits[..i], rows, owner)
    {
      assert hits[..i + 1][..i] == hits[..i];
      assert hits[i].id in wanted;
      if hits[i].id in byId {
        passages := passages + [PassageOf(hits[i], byId[hits[i].id].chunk.text)];
      }
    }
    TakeAll(hits);
  }

  /** The passages show, in hit order, each once, just the hits that repeat no digest and have a row of the owner's. */
  ghost predicate AnsweredFrom(hits: seq<Hit>, rows: map<ChunkId, ChunkRow>, owner: UserId, passages: seq<Passage>,
                               picks: seq<nat>)
  {
    |picks| == |passages| && Positions(picks, |hits|) &&
    (forall k :: 0 <= k < |passages| ==> Shows(passages[k], hits[picks[k]], rows)) &&
    forall j :: 0 <= j < |hits| ==>
      (j in picks <==> Unrepeated(hits, j) && hits[j].id in rows && rows[hits[j].id].owner == owner)
  }

  lemma AnswerInOrder(hits: seq<Hit>, rows: map<ChunkId, ChunkRow>, owner: UserId) returns (picks: seq<nat>)
    ensures AnsweredFrom(hits, rows, owner, Hydrated(Collapsed(hits), rows, owner), picks)
  {
    hide Hydrated, Collapsed, Shows;
    var kept := CollapsedInOrder(hits);
    var shown := HydratedInOrder(Collapsed(hits), rows, owner);
    picks := seq(|shown|, k requires 0 <= k < |shown| => kept[shown[k]]);
    forall j | 0 <= j < |hits|
      ensures j in picks <==> Unrepeated(hits, j) && hits[j].id in rows && rows[hits[j].id].owner == owner
    {
      if j in kept {
        var c :| 0 <= c < |kept| && kept[c] == j;
        PickedTwice(kept, shown, picks, c);
      } else {
        assert forall k :: 0 <= k < |picks| ==> picks[k] in kept;
      }
    }
  }

  lemma PickedTwice(kept: seq<nat>, shown: seq<nat>, picks: seq<nat>, c: nat)
    requires c < |kept| && (forall k :: 0 <= k < |shown| ==> shown[k] < |kept|) && |picks| == |shown|
    requires forall k :: 0 <= k < |shown| ==> picks[k] == kept[shown[k]]
    requires forall i, j :: 0 <= i < j < |kept| ==> kept[i] < kept[j]
    ensures c in shown <==> kept[c] in picks
  {
    if c in shown {
      var k :| 0 <= k < |shown| && shown[k] == c;
      assert picks[k] == kept[c];
    }
    if kept[c] in picks {
      var k :| 0 <= k < |picks| && picks[k] == kept[c];
      assert shown[k] == c;
    }
  }

  /** What follows the search: collapse, then attach text. */
  method AnswerFrom(hits: seq<Hit>, rows: map<ChunkId, ChunkRow>, owner: UserId) returns (passages: seq<Passage>)
    ensures passages == Hydrated(Collapsed(hits), rows, owner)
    ensures exists picks :: AnsweredFrom(hits, rows, owner, passages, picks)
  {
    ghost var picks := AnswerInOrder(hits, rows, owner);
    hide AnsweredFrom;
    var collapsed := CollapseDuplicates(hits);
    passages := Hydrate(collapsed, rows, owner);
  }

  function LimitOf(request: Request, defaultLimit: nat): nat {
    if request.limit.Some? && request.limit.value != 0 then request.limit.value else defaultLimit
  }

  /** The whole retrieval. */
  ghost function Retrieve(points: map<ChunkId, Point>, rows: map<ChunkId, ChunkRow>, score: Vector -> real,
                          row: Option<Position>, request: Request, defaultLimit: nat): seq<Passage>
  {
    var bound := ReadRangeBound(row, request);
    var hits := TopK(Candidates(points, request.owner, request.document, bound), score, LimitOf(request, defaultLimit));
    Hydrated(Collapsed(hits), rows, request.owner)
  }

  // --------------------------------------------------------------- the laws

  /** `x` stands at position `j` and no earlier hit carries its digest. */
  predicate FirstAt(hits: seq<Hit>, x: Hit, j: int) {
    0 <= j < |hits| && hits[j] == x && !Repeats(hits[..j], x)
  }

  /** Collapsing keeps exactly the first, and so best-ranked, hit of every digest, and every hit without one. */
  lemma {:induction false} CollapsedKeepsFirsts(hits: seq<Hit>, x: Hit)
    ensures x in Collapsed(hits) <==> exists j :: FirstAt(hits, x, j)
  {
    if hits != [] {
      var last := |hits| - 1;
      var front := hits[..last];
      CollapsedKeepsFirsts(front, x);
      assert forall j :: 0 <= j <= last ==> front[..j] == hits[..j];
      assert forall j :: 0 <= j < last ==> (FirstAt(front, x, j) <==> FirstAt(hits, x, j));
      if Repeats(front, hits[last]) {
        assert !FirstAt(hits, x, last);
      } else if x == hits[last] {
        assert FirstAt(hits, x, last);
        var kept := Collapsed(front) + [x];
        assert kept[|kept| - 1] == x;
      }
    }
  }

  lemma {:induction false} CollapsedIsDistinct(hits: seq<Hit>)
    ensures forall i, j :: 0 <= i < j < |Collapsed(hits)| && Collapsed(hits)[i].digest.Some? ==>
              Collapsed(hits)[i].digest != Collapsed(hits)[j].digest
  {
    if hits != [] {
      var last := |hits| - 1;
      var front := hits[..last];
      var before := Collapsed(front);
      CollapsedIsDistinct(front);
      if !Repeats(front, hits[last]) {
        forall i | 0 <= i < |before|
          ensures before[i].digest.Some? ==> before[i].digest != hits[last].digest
        {
          CollapsedKeepsFirsts(front, before[i]);
          var j :| FirstAt(front, before[i], j);
          assert front[j].digest == before[i].digest;
        }
      }
    }
  }

  /** Ranking: best first, distinct points, and nothing left out beats anything returned. */
  ghost predicate Ranked(points: map<ChunkId, Point>, score: Vector -> real, limit: nat, hits: seq<Hit>) {
    (forall i, j :: 0 <= i < j < |hits| ==> hits[j].score <= hits[i].score && hits[i].id != hits[j].id) &&
    (forall id :: id in points && Missing(hits, id) ==>
      |hits| == limit && forall k :: 0 <= k < |hits| ==> score(points[id].vector) <= hits[k].score)
  }

  predicate Missing(hits: seq<Hit>, id: ChunkId) {
    forall k :: 0 <= k < |hits| ==> hits[k].id != id
  }

  lemma {:induction false} TopKRanks(points: map<ChunkId, Point>, score: Vector -> real, limit: nat)
    ensures Ranked(points, score, limit, TopK(points, score, limit))
    decreases limit
  {
    hide TopK, Ranked, BestOf;
    if limit == 0 || points == map[] {
      TopKNothing(points, score, limit);
    } else {
      var id := Best(points, score);
      TopKRanks(points - {id}, score, limit - 1);
      var hit := TopKFirst(points, score, limit);
      RankFirst(points, score, limit, hit, TopK(points - {id}, score, limit - 1));
    }
  }

  lemma TopKNothing(points: map<ChunkId, Point>, score: Vector -> real, limit: nat)
    requires limit == 0 || points == map[]
    ensures TopK(points, score, limit) == [] && Ranked(points, score, limit, [])
  {
  }

  lemma TopKFirst(points: map<ChunkId, Point>, score: Vector -> real, limit: nat) returns (hit: Hit)
    requires limit != 0 && points != map[]
    ensures hit.id == Best(points, score) && hit.score == score(points[hit.id].vector)
    ensures TopK(points, score, limit) == [hit] + TopK(points - {hit.id}, score, limit - 1)
  {
    var id := Best(points, score);
    hit := Hit(id, score(points[id].vector), Some(points[id].payload.contentHash), points[id].payload);
  }

  lemma RankFirst(points: map<ChunkId, Point>, score: Vector -> real, limit: nat, hit: Hit, later: seq<Hit>)
    requires 0 < limit && BestOf(points, score, hit.id) && hit.score == score(points[hit.id].vector)
    requires Ranked(points - {hit.id}, score, limit - 1, later)
    requires forall k :: 0 <= k < |later| ==>
               later[k].id in points - {hit.id} && later[k].score == score(points[later[k].id].vector)
    ensures Ranked(points, score, limit, [hit] + later)
  {
    var hits := [hit] + later;
    forall i, j | 0 <= i < j < |hits|
      ensures hits[j].score <= hits[i].score && hits[i].id != hits[j].id
    {
      assert hits[j] == later[j - 1];
      assert i > 0 ==> hits[i] == later[i - 1];
    }
    forall id | id in points && Missing(hits, id)
      ensures |hits| == limit && forall k :: 0 <= k < |hits| ==> score(points[id].vector) <= hits[k].score
    {
      LeftOutBeatsNothing(points, score, limit, hit, later, id);
    }
  }

  lemma LeftOutBeatsNothing(
      points: map<ChunkId, Point>, score: Vector -> real, limit: nat, hit: Hit, later: seq<Hit>, id: ChunkId)
    requires 0 < limit && BestOf(points, score, hit.id) && hit.score == score(points[hit.id].vector)
    requires Ranked(points - {hit.id}, score, limit - 1, later)
    requires id in points && Missing([hit] + later, id)
    ensures |later| == limit - 1
    ensures forall k :: 0 <= k < |later| + 1 ==> score(points[id].vector) <= ([hit] + later)[k].score
  {
    var hits := [hit] + later;
    assert hits[0] == hit;
    assert forall k :: 0 <= k < |later| ==> hits[k + 1] == later[k];
    assert id in points - {hit.id} && Missing(later, id);
  }

  /** Every passage is a hit with its own row's text. */
  lemma {:induction false} PassagesAreHits(hits: seq<Hit>, rows: map<ChunkId, ChunkRow>, owner: UserId, k: nat)
    requires k < |Hydrated(hits, rows, owner)|
    ensures var passage := Hydrated(hits, rows, owner)[k];
            exists i :: 0 <= i < |hits| && RowFound(rows, owner, hits[i].id) &&
                        passage == PassageOf(hits[i], rows[hits[i].id].chunk.text)
  {
    var last := |hits| - 1;
    var front := hits[..last];
    if k < |Hydrated(front, rows, owner)| {
      PassagesAreHits(front, rows, owner, k);
      var i :| 0 <= i < |front| && RowFound(rows, owner, front[i].id) &&
               Hydrated(front, rows, owner)[k] == PassageOf(front[i], rows[front[i].id].chunk.text);
      assert hits[i] == front[i];
    } else {
      assert RowFound(rows, owner, hits[last].id);
    }
  }

  lemma {:induction false} CollapsedAreHits(hits: seq<Hit>, k: nat)
    requires k < |Collapsed(hits)|
    ensures Collapsed(hits)[k] in hits
  {
    assert Collapsed(hits)[k] in Collapsed(hits);
    CollapsedKeepsFirsts(hits, Collapsed(hits)[k]);
    var j :| FirstAt(hits, Collapsed(hits)[k], j);
    assert hits[j] == Collapsed(hits)[k];
  }

  /** Every passage comes from a candidate point of the owner's, inside the bound, and carries that id's row text. */
  lemma PassageSource(points: map<ChunkId, Point>, rows: map<ChunkId, ChunkRow>, score: Vector -> real,
                      row: Option<Position>, request: Request, defaultLimit: nat, k: nat)
    requires k < |Retrieve(points, rows, score, row, request, defaultLimit)|
    ensures var passage := Retrieve(points, rows, score, row, request, defaultLimit)[k];
            passage.id in points && RowFound(rows, request.owner, passage.id) &&
            Matches(points[passage.id].payload, request.owner, request.document, ReadRangeBound(row, request)) &&
            passage.text == rows[passage.id].chunk.text && passage.pageEnd == points[passage.id].payload.pageEnd
  {
    var bound := ReadRangeBound(row, request);
    var candidates := Candidates(points, request.owner, request.document, bound);
    var hits := TopK(candidates, score, LimitOf(request, defaultLimit));
    hide TopK, Hydrated, Collapsed, ReadRangeBound;
    PassagesAreHits(Collapsed(hits), rows, request.owner, k);
    var passage := Hydrated(Collapsed(hits), rows, request.owner)[k];
    var i :| 0 <= i < |Collapsed(hits)| && RowFound(rows, request.owner, Collapsed(hits)[i].id) &&
             passage == PassageOf(Collapsed(hits)[i], rows[Collapsed(hits)[i].id].chunk.text);
    CollapsedAreHits(hits, i);
    var j :| 0 <= j < |hits| && hits[j] == Collapsed(hits)[i];
    assert hits[j].id in candidates;
  }

  // --------------------------------------------------------- non-interference

  /** Two libraries that hold the same points inside the bound, and the same rows behind them. */
  ghost predicate SameInside(points: map<ChunkId, Point>, rows: map<ChunkId, ChunkRow>,
                             points': map<ChunkId, Point>, rows': map<ChunkId, ChunkRow>,
                             owner: UserId, document: DocumentId, bound: int)
  {
    Candidates(points, owner, Some(document), Some(bound)) == Candidates(points', owner, Some(document), Some(bound)) &&
    forall id :: id in Candidates(points, owner, Some(document), Some(bound)) ==>
      RowFound(rows, owner, id) == RowFound(rows', owner, id) &&
      (RowFound(rows, owner, id) ==> rows[id].chunk.text == rows'[id].chunk.text)
  }

  lemma {:induction false} HydratedAlike(
      hits: seq<Hit>, rows: map<ChunkId, ChunkRow>, rows': map<ChunkId, ChunkRow>, owner: UserId)
    requires forall i :: 0 <= i < |hits| ==>
               RowFound(rows, owner, hits[i].id) == RowFound(rows', owner, hits[i].id) &&
               (RowFound(rows, owner, hits[i].id) ==> rows[hits[i].id].chunk.text == rows'[hits[i].id].chunk.text)
    ensures Hydrated(hits, rows, owner) == Hydrated(hits, rows', owner)
  {
    if hits != [] {
      HydratedAlike(hits[..|hits| - 1], rows, rows', owner);
    }
  }

  /** When the bound applies, chunks that end past it cannot influence the answer in any way. */
  lemma UnreadCannotInterfere(points: map<ChunkId, Point>, rows: map<ChunkId, ChunkRow>,
                              points': map<ChunkId, Point>, rows': map<ChunkId, ChunkRow>, score: Vector -> real,
                              row: Option<Position>, request: Request, defaultLimit: nat)
    requires request.document.Some? && ReadRangeBound(row, request).Some?
    requires SameInside(points, rows, points', rows', request.owner, request.document.value,
                        ReadRangeBound(row, request).value)
    ensures Retrieve(points, rows, score, row, request, defaultLimit) ==
            Retrieve(points', rows', score, row, request, defaultLimit)
  {
    hide Candidates, Hydrated, TopK, Collapsed, ReadRangeBound;
    var bound := ReadRangeBound(row, request);
    var candidates := Candidates(points, request.owner, request.document, bound);
    assert request.document == Some(request.document.value) && bound == Some(bound.value);
    var hits := TopK(candidates, score, LimitOf(request, defaultLimit));
    forall i | 0 <= i < |Collapsed(hits)|
      ensures Collapsed(hits)[i].id in candidates
    {
      CollapsedAreHits(hits, i);
    }
    HydratedAlike(Collapsed(hits), rows, rows', request.owner);
  }
}
