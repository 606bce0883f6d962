/**
 * The productivity service: fetch the Notion database (when headers are
 * configured), score it, fill a productivity entity and save it, and answer
 * with a fixed response code.
 */
module ProductivityService {
  import opened JavaLang
  import opened NotionItems
  import opened Scoring

  datatype HttpStatus = OK | BAD_REQUEST

  /** The response envelope: a numeric code and an HTTP status. */
  datatype ResponseHttpUtils = ResponseHttpUtils(code: int, httpStatus: HttpStatus)

  /** `successProductivityResponseDTO`. */
  function SuccessProductivityResponse(): (r: ResponseHttpUtils)
    ensures r.code == 200 && r.httpStatus == OK
  {
    ResponseHttpUtils(200, OK)
  }

  /** `errorProductivityResponseDTO`: code 404 paired with the BAD_REQUEST status. */
  function ErrorProductivityResponse(): (r: ResponseHttpUtils)
    ensures r.code == 404 && r.httpStatus == BAD_REQUEST
  {
    ResponseHttpUtils(404, BAD_REQUEST)
  }

  /** A clock reading, taken as an input rather than read from the system clock. */
  datatype Timestamp = Timestamp(ticks: int)

  /** The values of the five fields the service sets on a productivity entity (null while unset). */
  datatype ProductivityRecord = ProductivityRecord(
    productivity: Option<int>,
    total: Option<int>,
    completedItems: Option<int>,
    totalItems: Option<int>,
    saveDate: Option<Timestamp>)

  /** The persisted productivity entity, whose fields are set one by one. */
  class NotionDatabaseProductivity {
    var productivity: Option<int>
    var total: Option<int>
    var completedItems: Option<int>
    var totalItems: Option<int>
    var saveDate: Option<Timestamp>

    constructor ()
      ensures Snapshot() == ProductivityRecord(None, None, None, None, None)
    {
      productivity, total, completedItems, totalItems, saveDate := None, None, None, None, None;
    }

    /** The current values of the fields. */
    function Snapshot(): ProductivityRecord
      reads this
    {
      ProductivityRecord(productivity, total, completedItems, totalItems, saveDate)
    }
  }

  /** Java `Map.get`: the value bound to `key`, or null when there is none. */
  function Get(m: map<string, int>, key: string): (r: Option<int>)
    ensures r.Some? <==> key in m
    ensures r.Some? ==> r.value == m[key]
  {
    if key in m then Some(m[key]) else None
  }

  /**
   * `findNotionDatabase`: the client is consulted only when the configured
   * headers are not empty; `fetched` is what the client would return.
   */
  function FindNotionDatabase(headers: map<string, string>, fetched: Option<NotionDatabase>)
    : (db: Option<NotionDatabase>)
    ensures headers == map[] ==> db == None
    ensures headers != map[] ==> db == fetched
  {
    if headers != map[] then fetched else None
  }

  /** The record one successful pass over `items` saves. */
  function ScoreRecord(items: seq<Item>, w: Weights, now: Timestamp): ProductivityRecord {
    ProductivityRecord(
      Some(Points(Completed(items), w)),
      Some(Points(items, w)),
      Some(|Completed(items)|),
      Some(|items|),
      Some(now))
  }

  /**
   * A saved record never claims more completed items than items, nor (with
   * non-negative weights and no overflow) more completed points than total points.
   */
  lemma ScoreRecordBounds(items: seq<Item>, w: Weights, now: Timestamp)
    ensures var r := ScoreRecord(items, w, now);
      r.completedItems.Some? && r.totalItems.Some? && r.completedItems.value <= r.totalItems.value
    ensures var r := ScoreRecord(items, w, now);
      NonNegative(w) && WeightedSum(PriorityCounts(items), w) <= INT_MAX ==>
        r.productivity.Some? && r.total.Some? && 0 <= r.productivity.value <= r.total.value
  {
    if NonNegative(w) && WeightedSum(PriorityCounts(items), w) <= INT_MAX {
      CompletedPointsAtMostTotal(items, w);
    }
  }

  /** The saved record does not depend on the order in which the items were fetched. */
  lemma ScoreRecordPermutation(a: seq<Item>, b: seq<Item>, w: Weights, now: Timestamp)
    requires multiset(a) == multiset(b)
    ensures ScoreRecord(a, w, now) == ScoreRecord(b, w, now)
  {
    PointsPermutation(a, b, w);
    CompletedPermutation(a, b);
    assert |Completed(a)| == |multiset(Completed(a))| == |multiset(Completed(b))| == |Completed(b)|;
    assert |a| == |multiset(a)| == |multiset(b)| == |b|;
  }

  /** The scoring service; `repository` lists the records saved so far, oldest first. */
  class NotionProductivityServiceImpl {
    const weights: Weights
    var repository: seq<ProductivityRecord>

    constructor (weights: Weights)
      ensures this.weights == weights && repository == []
    {
      this.weights := weights;
      repository := [];
    }

    /**
     * `createProductivityModel`: sets the five fields of `productivity` from
     * the points map, the two sizes and the clock, and returns the same object.
     */
    method CreateProductivityModel(productivity: NotionDatabaseProductivity, points: map<string, int>,
                                   completedItems: int, totalItems: int, now: Timestamp)
      returns (r: NotionDatabaseProductivity)
      modifies productivity
      ensures r == productivity
      ensures r.Snapshot() == ProductivityRecord(
        Get(points, COMPLETED_ITEMS), Get(points, TOTAL_ITEMS), Some(completedItems), Some(totalItems), Some(now))
    {
      productivity.productivity := Get(points, COMPLETED_ITEMS);
      productivity.total := Get(points, TOTAL_ITEMS);
      productivity.completedItems := Some(completedItems);
      productivity.totalItems := Some(totalItems);
      productivity.saveDate := Some(now);
      return productivity;
    }

    /** `save`: the repository records the entity's current field values. */
    method Save(productivity: NotionDatabaseProductivity)
      modifies this
      ensures repository == old(repository) + [productivity.Snapshot()]
    {
      repository := repository + [productivity.Snapshot()];
    }

    /**
     * `calculate`: with no database (no headers, or the client returned
     * none) answers 404 and saves nothing; when the items score zero total
     * points the percentage division throws and nothing is saved; otherwise
     * saves exactly the scored record and answers 200.
     */
    method Calculate(headers: map<string, string>, fetched: Option<NotionDatabase>, now: Timestamp)
      returns (outcome: Result<ResponseHttpUtils>)
      modifies this
      ensures var db := FindNotionDatabase(headers, fetched);
        db.None? ==> outcome == Ok(ErrorProductivityResponse()) && repository == old(repository)
      ensures var db := FindNotionDatabase(headers, fetched);
        db.Some? && Points(db.value.items, weights) == 0 ==>
          outcome == Err(ArithmeticException) && repository == old(repository)
      ensures var db := FindNotionDatabase(headers, fetched);
        db.Some? && Points(db.value.items, weights) != 0 ==>
          outcome == Ok(SuccessProductivityResponse()) &&
          repository == old(repository) + [ScoreRecord(db.value.items, weights, now)]
    {
      var productivity := new NotionDatabaseProductivity();
      var notionDatabase := FindNotionDatabase(headers, fetched);

      if notionDatabase.Some? {
        var allItems := notionDatabase.value.items;
        var completedItems := Completed(allItems);
        var valueProductivity := CalculateProductivity(completedItems, allItems, weights);
        if valueProductivity.Err? {
          return Err(valueProductivity.error);
        }
        productivity := CreateProductivityModel(productivity, valueProductivity.value,
                                                |completedItems|, |allItems|, now);
        Save(productivity);
        return Ok(SuccessProductivityResponse());
      }
      return Ok(ErrorProductivityResponse());
    }
  }
}
