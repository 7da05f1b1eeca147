/**
 * Values shared by every part of the model: optional values, results that
 * carry an error message (the `message` of a thrown JavaScript `Error`), and
 * loosely typed JSON-like records as the gateway receives them from upstream
 * services and stores them in its database.
 */
module Common {

  datatype Option<+T> = None | Some(value: T) {
    function GetOr(default: T): T {
      match this
      case Some(v) => v
      case None => default
    }
  }

  /** The outcome of an operation that may throw: `Err` carries the error's message. */
  datatype Result<+T> = Ok(value: T) | Err(error: string)

  /** JavaScript truthiness of an optional string: `undefined` and `''` are falsy. */
  predicate Truthy(s: Option<string>) {
    s.Some? && s.value != ""
  }

  /** JavaScript `a || b` for an optional string and a string default. */
  function OrElse(s: Option<string>, default: string): (r: string)
    ensures Truthy(s) ==> r == s.value
    ensures !Truthy(s) ==> r == default
  {
    if Truthy(s) then s.value else default
  }

  /**
   * A scalar field of a JSON document. Numbers are kept as the text the
   * runtime renders for them: number formatting is not modelled.
   */
  datatype Value = Str(s: string) | Num(text: string) | Bool(b: bool) | Null

  /** A flat JSON object: field name to value; an absent key is `undefined`. */
  type Record = map<string, Value>

  /** How a template literal `${v}` renders a field value. */
  function Render(v: Value): string {
    match v
    case Str(s) => s
    case Num(text) => text
    case Bool(b) => if b then "true" else "false"
    case Null => "null"
  }

  /** `${rec.key}`: an absent field renders as `undefined`. */
  function Field(rec: Record, key: string): (r: string)
    ensures key !in rec ==> r == "undefined"
  {
    if key in rec then Render(rec[key]) else "undefined"
  }

  /** A piece of a template literal: fixed text, or a `${rec.field}` hole. */
  datatype Piece = Text(s: string) | Hole(field: string)

  /** How one piece of a template literal renders for the record `rec`. */
  function PieceText(p: Piece, rec: Record): string {
    match p
    case Text(s) => s
    case Hole(f) => Field(rec, f)
  }

  /** The concatenation of a list of strings. */
  function Concat(parts: seq<string>): string
    decreases |parts|
  {
    if parts == [] then "" else parts[0] + Concat(parts[1..])
  }

  /** The string a template literal renders to for the record `rec`. */
  function Fill(template: seq<Piece>, rec: Record): string {
    Concat(seq(|template|, i requires 0 <= i < |template| => PieceText(template[i], rec)))
  }

  /** The template has no hole for `field`. */
  predicate NoHoleFor(template: seq<Piece>, field: string) {
    forall i :: 0 <= i < |template| ==> template[i] != Hole(field)
  }

  /** A rendered template depends only on the fields it has holes for. */
  lemma FillReadsOnlyHoles(template: seq<Piece>, a: Record, b: Record)
    requires forall i :: 0 <= i < |template| && template[i].Hole? ==> Field(a, template[i].field) == Field(b, template[i].field)
    ensures Fill(template, a) == Fill(template, b)
  {
    var pa := seq(|template|, i requires 0 <= i < |template| => PieceText(template[i], a));
    var pb := seq(|template|, i requires 0 <= i < |template| => PieceText(template[i], b));
    assert pa == pb;
  }

  /** Setting a field the template has no hole for leaves the rendering unchanged. */
  lemma FillIgnoresOtherFields(template: seq<Piece>, rec: Record, field: string, v: Value)
    requires NoHoleFor(template, field)
    ensures Fill(template, rec[field := v]) == Fill(template, rec)
  {
    FillReadsOnlyHoles(template, rec[field := v], rec);
  }

  /**
   * The record without the named fields: JavaScript rest destructuring
   * `const { a, b, ...rest } = rec` or a sequence of `delete rec.a`.
   */
  function Omit(rec: Record, keys: set<string>): (r: Record)
    ensures r.Keys == rec.Keys - keys
    ensures forall k :: k in r ==> r[k] == rec[k]
  {
    map k | k in rec && k !in keys :: rec[k]
  }

  /** One more settled item of a `Promise.all`: the first error stays, otherwise the value is appended. */
  function CollectStep<T>(acc: Result<seq<T>>, next: Result<T>): Result<seq<T>> {
    match acc
    case Err(e) => Err(e)
    case Ok(vs) => (match next case Err(e) => Err(e) case Ok(v) => Ok(vs + [v]))
  }

  /**
   * `Promise.all` over items that have all settled, read in request order:
   * every value in order, or the error of the first item that failed.
   */
  function Collect<T>(rs: seq<Result<T>>): Result<seq<T>>
    decreases |rs|
  {
    if rs == [] then Ok([]) else CollectStep(Collect(rs[..|rs| - 1]), rs[|rs| - 1])
  }

  /**
   * Collecting succeeds exactly when every item succeeded, and then holds one
   * value per item in order; otherwise its error is that of an item all of
   * whose predecessors succeeded.
   */
  lemma {:induction false} CollectFacts<T>(rs: seq<Result<T>>)
    ensures Collect(rs).Ok? <==> forall i :: 0 <= i < |rs| ==> rs[i].Ok?
    ensures Collect(rs).Ok? ==>
              |Collect(rs).value| == |rs| && forall i :: 0 <= i < |rs| ==> Collect(rs).value[i] == rs[i].value
    ensures Collect(rs).Err? ==>
              exists i :: 0 <= i < |rs| && rs[i] == Err(Collect(rs).error) && forall j :: 0 <= j < i ==> rs[j].Ok?
    decreases |rs|
  {
    if rs != [] {
      var front := rs[..|rs| - 1];
      CollectFacts(front);
      assert forall i :: 0 <= i < |front| ==> front[i] == rs[i];
      if Collect(front).Err? {
        var i :| 0 <= i < |front| && front[i] == Err(Collect(front).error) && forall j :: 0 <= j < i ==> front[j].Ok?;
        assert rs[i] == front[i];
      } else if rs[|rs| - 1].Err? {
        assert forall j :: 0 <= j < |rs| - 1 ==> rs[j].Ok?;
      }
    }
  }
}
