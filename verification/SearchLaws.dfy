/** What a whole search answers: the best points a reader may see, best first, each text once, none left out. */
module SearchLaws {
  import opened Ingestion
  import opened Retrieval
  import opened Shared

  /** Spoiler-safe is on: as the request says, else as the document's own setting says, else by the reader's default. */
  predicate SafeReading(row: Option<Position>, request: Request) {
    request.perQuery == Some(true) ||
    (request.perQuery == None &&
     (OwnSetting(row, true) || (!OwnSetting(row, true) && !OwnSetting(row, false) && request.userDefault)))
  }

  predicate OwnSetting(row: Option<Position>, on: bool) {
    row.Some? && row.value.spoilerSafe == Some(on)
  }

  /** A targeted search sees what lies past the reader's page only when it asks to and spoiler-safe is off. */
  predicate SeesUnread(row: Option<Position>, request: Request) {
    request.document == None || (request.includeUnread && !SafeReading(row, request))
  }

  /** The page reached, zero if no position is recorded. */
  predicate Reached(row: Option<Position>, page: int) {
    page <= match row case None => 0 case Some(position) => position.currentPage
  }

  /** The points a search is about: the owner's, of the document asked for, and within what may be seen. */
  ghost predicate Searchable(points: map<ChunkId, Point>, row: Option<Position>, request: Request, id: ChunkId) {
    id in points &&
    var payload := points[id].payload;
    payload.owner == request.owner && (request.document == None || request.document == Some(payload.document)) &&
    (SeesUnread(row, request) || Reached(row, payload.pageEnd))
  }

  /** The hit is its point's: score, digest and tags. */
  predicate HitOf(points: map<ChunkId, Point>, score: Vector -> real, hit: Hit) {
    hit.id in points && hit.score == score(points[hit.id].vector) && hit.payload == points[hit.id].payload &&
    hit.digest == Some(points[hit.id].payload.contentHash)
  }

  /** The best searchable points, at most `limit`, best first, each once; what is left out beats none of them. */
  ghost predicate BestFirst(points: map<ChunkId, Point>, score: Vector -> real, row: Option<Position>,
                            request: Request, limit: nat, hits: seq<Hit>)
  {
    |hits| <= limit &&
    (forall k :: 0 <= k < |hits| ==> Searchable(points, row, request, hits[k].id) && HitOf(points, score, hits[k])) &&
    (forall i, j :: 0 <= i < j < |hits| ==> hits[j].score <= hits[i].score && hits[i].id != hits[j].id) &&
    (forall id :: Searchable(points, row, request, id) && Missing(hits, id) ==>
      |hits| == limit && forall k :: 0 <= k < |hits| ==> score(points[id].vector) <= hits[k].score)
  }

  lemma CandidateIff(points: map<ChunkId, Point>, row: Option<Position>, request: Request, id: ChunkId)
    ensures id in Candidates(points, request.owner, request.document, ReadRangeBound(row, request)) <==>
            Searchable(points, row, request, id)
  {
    assert SpoilerOn(row, request) == SafeReading(row, request);
  }

  /** The limit asked for, unless it is left out or zero. */
  lemma RankingIs(points: map<ChunkId, Point>, score: Vector -> real, row: Option<Position>, request: Request,
                  defaultLimit: nat, limit: nat)
    requires if request.limit == None || request.limit == Some(0) then limit == defaultLimit
             else request.limit == Some(limit)
    ensures var bound := ReadRangeBound(row, request);
            var candidates := Candidates(points, request.owner, request.document, bound);
            BestFirst(points, score, row, request, limit, TopK(candidates, score, LimitOf(request, defaultLimit)))
  {
    hide TopK, ReadRangeBound, Searchable, Candidates;
    var bound := ReadRangeBound(row, request);
    var candidates := Candidates(points, request.owner, request.document, bound);
    TopKRanks(candidates, score, limit);
    forall id
      ensures id in candidates <==> Searchable(points, row, request, id)
      ensures id in candidates ==> id in points && candidates[id] == points[id]
    {
      CandidateIff(points, row, request, id);
      CandidateIsPoint(points, request.owner, request.document, bound, id);
    }
  }

  lemma CandidateIsPoint(points: map<ChunkId, Point>, owner: UserId, document: Option<DocumentId>, bound: Option<int>,
                         id: ChunkId)
    ensures var candidates := Candidates(points, owner, document, bound);
            id in candidates ==> id in points && candidates[id] == points[id]
  {
  }

  /**
   A search answers from the ranking of the best searchable points: in that order, each once, exactly the hits that are
   the first with their digest and have a row of the owner's, so scores never rise along the answer.
   */
  lemma RetrieveIs(points: map<ChunkId, Point>, rows: map<ChunkId, ChunkRow>, score: Vector -> real,
                   row: Option<Position>, request: Request, defaultLimit: nat, limit: nat)
    returns (hits: seq<Hit>, picks: seq<nat>)
    requires if request.limit == None || request.limit == Some(0) then limit == defaultLimit
             else request.limit == Some(limit)
    ensures BestFirst(points, score, row, request, limit, hits)
    ensures var passages := Retrieve(points, rows, score, row, request, defaultLimit);
            AnsweredFrom(hits, rows, request.owner, passages, picks) &&
            forall i, j :: 0 <= i < j < |passages| ==> passages[j].score <= passages[i].score
  {
    RankingIs(points, score, row, request, defaultLimit, limit);
    var bound := ReadRangeBound(row, request);
    hits := TopK(Candidates(points, request.owner, request.document, bound), score, LimitOf(request, defaultLimit));
    hide TopK, ReadRangeBound, Searchable, Candidates, Hydrated, Collapsed, LimitOf;
    picks := AnswerInOrder(hits, rows, request.owner);
  }
}
