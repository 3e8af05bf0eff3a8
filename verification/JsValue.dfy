/** JSON values and the parts of the JavaScript runtime the program calls. */
module JsValue {
  import opened JsText

  datatype Option<+T> = None | Some(value: T)

  /** The values that are there, in order. */
  function Present<T>(options: seq<Option<T>>): seq<T> {
    if options == [] then []
    else
      var front, last := Present(options[..|options| - 1]), options[|options| - 1];
      if last.Some? then front + [last.value] else front
  }

  /** A JavaScript number. Rounding is not modelled; the values that are not finite are. */
  datatype JsNumber = Fin(r: real) | NaN | PosInf | NegInf

  /** What JSON.parse returns. An over-long literal such as 1e999 parses to an infinity. */
  datatype Json =
    | Null
    | Bool(b: bool)
    | Num(n: JsNumber)
    | Str(s: Text)
    | Arr(items: seq<Json>)
    | Obj(fields: map<string, Json>)

  /**
   * The runtime the program runs on, as functions on values:
   * parse is JSON.parse (None when it throws), stringify is JSON.stringify, toText is String(x) (None when it
   * throws), toNumber is Number(s), reprintNumber is what a number comes back as after printing and parsing (the
   * nearest double, or null for an infinity), and ownProps is what Object.assign copies out of a value that is no
   * object.
   */
  datatype Js = Js(
    parse: Text -> Option<Json>,
    stringify: Json -> Text,
    toText: Json -> Option<Text>,
    toNumber: Text -> JsNumber,
    reprintNumber: JsNumber -> Json,
    ownProps: Json -> map<string, Json>)
  {
    /** What a printed value parses to: the value itself, but for its numbers. */
    function Reprint(e: Json): Json {
      match e
      case Num(n) => reprintNumber(n)
      case Arr(items) => Arr(seq(|items|, i requires 0 <= i < |items| => Reprint(items[i])))
      case Obj(fields) => Obj(map k | k in fields :: Reprint(fields[k]))
      case _ => e
    }

    /** Printing emits no raw newline, and parsing reads a printed value back. */
    ghost predicate Valid() {
      && (forall e {:trigger stringify(e)} :: parse(stringify(e)) == Some(Reprint(e)))
      && (forall e {:trigger stringify(e)} :: NEWLINE !in stringify(e))
    }
  }

  /** e[k], None for undefined. Reading a property of null throws, so callers test for Null first. */
  function Get(e: Json, k: string): (r: Option<Json>)
    ensures r.Some? ==> r.value < e
  {
    if e.Obj? && k in e.fields then Some(e.fields[k]) else None
  }

  /** x?.[k] */
  function GetOpt(x: Option<Json>, k: string): (r: Option<Json>)
    ensures r.Some? ==> x.Some? && r.value < x.value
  {
    if x.Some? then Get(x.value, k) else None
  }

  /** x ?? y */
  function Coalesce(x: Option<Json>, y: Option<Json>): Option<Json> {
    if x.None? || x.value.Null? then y else x
  }

  predicate Truthy(x: Option<Json>) {
    match x
    case None => false
    case Some(Null) => false
    case Some(Bool(b)) => b
    case Some(Num(n)) => n != NaN && n != Fin(0.0)
    case Some(Str(s)) => s != []
    case Some(_) => true
  }

  /** The falsy values: undefined, null, false, zero, NaN and the empty string. */
  lemma FalsyValues(x: Option<Json>)
    ensures Truthy(x)
       <==> x !in {None, Some(Null), Some(Bool(false)), Some(Num(Fin(0.0))), Some(Num(NaN)), Some(Str([]))}
  {
  }

  predicate IsText(x: Option<Json>, s: string) {
    x == Some(Str(Lit(s)))
  }

  /** Object.assign(target, x) */
  function Assign(js: Js, target: map<string, Json>, x: Json): map<string, Json> {
    target + (if x.Obj? then x.fields else js.ownProps(x))
  }

  lemma ReprintGet(js: Js, e: Json, k: string)
    requires e.Obj?
    ensures Get(js.Reprint(e), k) == if Get(e, k).None? then None else Some(js.Reprint(Get(e, k).value))
  {
  }
}
