/**
 * The classifier's response records and the fixed category table.
 *
 * The classification service answers with a JSON array of objects. Each
 * object is modelled as a map from field names to decoded JSON values; the
 * fields the application reads are "aussage" (statement text), "kategorie"
 * (category), "begründung" (justification) and "punkte" (points).
 */
module Records {

  /** A decoded JSON value, as far as the application inspects it. */
  datatype Json =
    | JNull
    | JBool(b: bool)
    | JNum(n: int)
    | JStr(s: string)
    | JOther   // a float, list or object: never inspected, only passed on

  /** One response record: a JSON object. */
  type Item = map<string, Json>

  /** Why an operation of the pipeline failed. */
  datatype Error =
    | MissingKey(key: string)     // a Python KeyError on item[key]
    | ServiceError(message: string) // transport, HTTP status or JSON decoding

  const Kategorie := "kategorie"
  const Punkte := "punkte"
  const Aussage := "aussage"
  const Begruendung := "begründung"

  /** The five known categories, in the fixed order every report uses. */
  const CategoryOrder: seq<string> := ["FALSCH", "DELEGITIMIERUNG", "VERZERRUNG", "FRAME", "WAHR"]

  predicate IsKnownCategory(c: Json)
  {
    c.JStr? && c.s in CategoryOrder
  }

  /** CATEGORY_POINTS.get(c, 0): the weight of a category; unknown labels weigh 0. */
  function CategoryPoints(c: Json): (p: nat)
    ensures p <= 5
    ensures !IsKnownCategory(c) ==> p == 0
  {
    match c
    case JStr("FALSCH") => 5
    case JStr("DELEGITIMIERUNG") => 4
    case JStr("VERZERRUNG") => 3
    case JStr("FRAME") => 1
    case _ => 0
  }

  /** Every record of `data` has the field `key`. */
  predicate HasAll(data: seq<Item>, key: string)
  {
    forall i | 0 <= i < |data| :: key in data[i]
  }

  /** The category of every record, in order (the generator `item['kategorie'] for item in data`). */
  function Categories(data: seq<Item>): (cats: seq<Json>)
    requires HasAll(data, Kategorie)
    ensures |cats| == |data|
    ensures forall i | 0 <= i < |data| :: cats[i] == data[i][Kategorie]
  {
    if data == [] then [] else [data[0][Kategorie]] + Categories(data[1..])
  }
}
