/**
 * Response normalisation in `call_api`: the statements are joined into one
 * query, the classification service is asked, and every returned record that
 * lacks "punkte" gets the weight of its category.
 */
module Ingestion {
  import opened Wrappers
  import opened Records
  import opened Statements

  /** The query `call_api` sends: the model identifier and the `|`-joined statements. */
  datatype Request = Request(modelId: int, text: string)

  /** A record can be normalised when it already has points or at least has a category. */
  predicate CanBackfill(item: Item)
  {
    Punkte in item || Kategorie in item
  }

  /** The body of the normalisation loop for one record. */
  function BackfillItem(item: Item): (r: Item)
    requires CanBackfill(item)
    ensures Punkte in r && r.Keys == item.Keys + {Punkte}
    ensures Punkte in item ==> r == item
    ensures Punkte !in item ==> r[Punkte] == JNum(CategoryPoints(item[Kategorie]))
    ensures forall k | k in item && k != Punkte :: r[k] == item[k]
  {
    if Punkte in item then item else item[Punkte := JNum(CategoryPoints(item[Kategorie]))]
  }

  /** The index of the first record that cannot be normalised (|data| if none). */
  function FirstUnbackfillable(data: seq<Item>): (k: nat)
    ensures k <= |data|
    ensures forall i | 0 <= i < k :: CanBackfill(data[i])
    ensures k < |data| ==> !CanBackfill(data[k])
  {
    if data == [] || !CanBackfill(data[0]) then 0 else 1 + FirstUnbackfillable(data[1..])
  }

  /**
   * The normalised response, or the KeyError on "kategorie" that the loop raises
   * for the first record with neither "punkte" nor "kategorie".
   */
  function Backfilled(data: seq<Item>): Result<seq<Item>, Error>
  {
    if FirstUnbackfillable(data) < |data| then Failure(MissingKey(Kategorie))
    else Success(seq(|data|, i requires 0 <= i < |data| => BackfillItem(data[i])))
  }

  /**
   * The `for item in data` loop of `call_api`, updating each record in place.
   * On failure the records before the offending one are already updated.
   */
  method BackfillPoints(data: array<Item>) returns (ok: bool)
    modifies data
    ensures ok <==> FirstUnbackfillable(old(data[..])) == data.Length
    ensures ok ==> Backfilled(old(data[..])) == Success(data[..])
    ensures !ok ==> forall i | 0 <= i < data.Length ::
      data[i] == if i < FirstUnbackfillable(old(data[..])) then BackfillItem(old(data[i])) else old(data[i])
  {
    ghost var original := data[..];
    var i := 0;
    while i < data.Length
      invariant 0 <= i <= data.Length
      invariant forall j | 0 <= j < i :: CanBackfill(original[j]) && data[j] == BackfillItem(original[j])
      invariant forall j | i <= j < data.Length :: data[j] == original[j]
    {
      var item := data[i];
      if Punkte !in item {
        if Kategorie !in item {
          assert FirstUnbackfillable(original) == i by { FirstUnbackfillableAt(original, i); }
          return false;
        }
        data[i] := item[Punkte := JNum(CategoryPoints(item[Kategorie]))];
      }
      i := i + 1;
    }
    FirstUnbackfillableAt(original, data.Length);
    assert data[..] == seq(|original|, j requires 0 <= j < |original| => BackfillItem(original[j]));
    return true;
  }

  /** `call_api`: the service is a parameter standing for the HTTP request and JSON decoding. */
  method CallApi(statements: seq<string>, modelId: int, service: Request -> Result<seq<Item>, string>)
    returns (r: Result<seq<Item>, Error>)
    ensures service(Request(modelId, JoinStatements(statements))).Failure? ==>
      r == Failure(ServiceError(service(Request(modelId, JoinStatements(statements))).error))
    ensures service(Request(modelId, JoinStatements(statements))).Success? ==>
      r == Backfilled(service(Request(modelId, JoinStatements(statements))).value)
  {
    var textParam := JoinStatements(statements);
    var response := service(Request(modelId, textParam));
    if response.Failure? {
      return Failure(ServiceError(response.error));
    }
    var data := new Item[|response.value|](i requires 0 <= i < |response.value| => response.value[i]);
    assert data[..] == response.value;
    var ok := BackfillPoints(data);
    if !ok {
      return Failure(MissingKey(Kategorie));
    }
    return Success(data[..]);
  }

  // ---------------------------------------------------------------------------
  // Properties
  // ---------------------------------------------------------------------------

  /** The first failing index is determined by the records before it and the one at it. */
  lemma {:induction false} FirstUnbackfillableAt(data: seq<Item>, k: nat)
    requires k <= |data|
    requires forall j | 0 <= j < k :: CanBackfill(data[j])
    requires k < |data| ==> !CanBackfill(data[k])
    ensures FirstUnbackfillable(data) == k
  {
    if k > 0 {
      FirstUnbackfillableAt(data[1..], k - 1);
    }
  }

  /**
   * What normalisation promises: it fails exactly when some record has neither
   * "punkte" nor "kategorie"; otherwise the list keeps its length and order,
   * records with "punkte" are untouched, the others gain the weight of their
   * category, and no other field changes.
   */
  lemma BackfillSpec(data: seq<Item>)
    ensures Backfilled(data).Failure? <==> exists i | 0 <= i < |data| :: Punkte !in data[i] && Kategorie !in data[i]
    ensures Backfilled(data).Failure? ==> Backfilled(data).error == MissingKey(Kategorie)
    ensures Backfilled(data).Success? ==>
      var out := Backfilled(data).value;
      && |out| == |data|
      && (forall i | 0 <= i < |data| :: Punkte in out[i] && out[i].Keys == data[i].Keys + {Punkte})
      && (forall i | 0 <= i < |data| && Punkte in data[i] :: out[i] == data[i])
      && (forall i | 0 <= i < |data| && Punkte !in data[i] :: out[i][Punkte] == JNum(CategoryPoints(data[i][Kategorie])))
      && (forall i, k | 0 <= i < |data| && k in data[i] && k != Punkte :: out[i][k] == data[i][k])
  {
    var k := FirstUnbackfillable(data);
    if k < |data| {
      assert Punkte !in data[k] && Kategorie !in data[k];
    }
  }

  /** Normalising twice changes nothing more. */
  lemma BackfillIdempotent(data: seq<Item>)
    requires Backfilled(data).Success?
    ensures Backfilled(Backfilled(data).value) == Backfilled(data)
  {
    var out := Backfilled(data).value;
    FirstUnbackfillableAt(out, |out|);
    assert seq(|out|, i requires 0 <= i < |out| => BackfillItem(out[i])) == out;
  }
}
