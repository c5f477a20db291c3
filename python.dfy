/** The slice of Python semantics the client relies on: the values it handles
    (decoded JSON plus bytes), the exceptions it raises or lets through, and the
    built-in operations it applies to them (`in`, subscription, `len`,
    truthiness, `str`, `float`, `int`, `str.rstrip`). */
module Python {
  import opened Wrappers
  import Decimal

  type Bytes = seq<bv8>

  /** A dynamically typed value: `None`, a bool, an int, a str, bytes, a list
      or a dict with string keys (every JSON document decodes to one). */
  datatype Value =
    | Null
    | Bool(b: bool)
    | Int(n: int)
    | Str(s: string)
    | ByteStr(data: Bytes)
    | List(items: seq<Value>)
    | Dict(fields: map<string, Value>)

  /** Why a `FailedToConnect` was raised. */
  datatype Reason =
    | ConnectionRefused
    | NeedPlanId
    | LoginErrors(errors: Value)
    | InvalidToken
    | InvalidResponse
    | ErrorStatus(code: Value, message: Value)
    | MissingKey(key: Value)
    | UndecodableReply
    | NetAppError(error: Value)
    | MiddlewareFailure(cause: Exception)

  /** The client's own exceptions and the built-in ones it lets propagate. */
  datatype Exception =
    | FailedToConnect(reason: Reason)
    | NetAppNotReady(message: string)
    | KeyError(key: Value)
    | TypeError
    | ValueError
    | IndexError
    | AssertionError
    | JSONDecodeError
    | H264EncoderError
    | EncodingError
    | TransportError

  /** `bool(v)`. */
  predicate Truthy(v: Value) {
    match v
    case Null => false
    case Bool(b) => b
    case Int(n) => n != 0
    case Str(s) => s != ""
    case ByteStr(d) => d != []
    case List(xs) => xs != []
    case Dict(m) => m != map[]
  }

  predicate IsSubstring(needle: string, hay: string) {
    exists i :: 0 <= i <= |hay| && needle <= hay[i..]
  }

  /** `key in v` for a str key: a dict tests its keys, a list its elements, a
      str its substrings; anything else raises TypeError. */
  function Contains(v: Value, key: string): Result<bool, Exception> {
    match v
    case Dict(m) => Ok(key in m)
    case List(xs) => Ok(Str(key) in xs)
    case Str(s) => Ok(IsSubstring(key, s))
    case _ => Err(TypeError)
  }

  /** `v[key]` for a str key: only a dict can be subscripted by a str. */
  function GetItem(v: Value, key: string): Result<Value, Exception> {
    match v
    case Dict(m) => if key in m then Ok(m[key]) else Err(KeyError(Str(key)))
    case _ => Err(TypeError)
  }

  /** `v[i]` for an int index `i >= 0`. A JSON dict has only str keys, so an
      int subscript of a dict always raises KeyError. */
  function ItemAt(v: Value, i: nat): Result<Value, Exception> {
    match v
    case List(xs) => if i < |xs| then Ok(xs[i]) else Err(IndexError)
    case Str(s) => if i < |s| then Ok(Str([s[i]])) else Err(IndexError)
    case ByteStr(d) => if i < |d| then Ok(Int(d[i] as int)) else Err(IndexError)
    case Dict(_) => Err(KeyError(Int(i)))
    case _ => Err(TypeError)
  }

  /** `len(v)`. */
  function Len(v: Value): Result<nat, Exception> {
    match v
    case List(xs) => Ok(|xs|)
    case Str(s) => Ok(|s|)
    case ByteStr(d) => Ok(|d|)
    case Dict(m) => Ok(|m|)
    case _ => Err(TypeError)
  }

  /** `str(v)` for the scalar values; containers and bytes get a placeholder. */
  function Text(v: Value): string {
    match v
    case Null => "None"
    case Bool(b) => if b then "True" else "False"
    case Int(n) => Decimal.IntToString(n)
    case Str(s) => s
    case ByteStr(_) => "<bytes>"
    case List(_) => "<list>"
    case Dict(_) => "<dict>"
  }

  /** The text of an optional str as an f-string renders it. */
  function OptionalText(o: Option<string>): string {
    if o.Some? then o.value else "None"
  }

  function Latin1(d: Bytes): string {
    seq(|d|, i requires 0 <= i < |d| => d[i] as char)
  }

  function ParseNumeral(s: string): Result<int, Exception> {
    var n := Decimal.ParseInt(s);
    if n.Some? then Ok(n.value) else Err(ValueError)
  }

  /** `int(v)`; strings are accepted when they are a plain signed numeral. */
  function ToInt(v: Value): Result<int, Exception> {
    match v
    case Int(n) => Ok(n)
    case Bool(b) => Ok(if b then 1 else 0)
    case Str(s) => ParseNumeral(s)
    case ByteStr(d) => ParseNumeral(Latin1(d))
    case _ => Err(TypeError)
  }

  /** `float(v)`, on the integral values the model has. */
  function ToFloat(v: Value): Result<real, Exception> {
    var n :- ToInt(v);
    Ok(n as real)
  }

  /** `s.rstrip(c)` for a one-character argument: the longest prefix of `s`
      that does not end in `c`. */
  function RStrip(s: string, c: char): (r: string)
    ensures |r| <= |s| && r == s[..|r|]
    ensures |r| > 0 ==> r[|r| - 1] != c
    ensures forall i :: |r| <= i < |s| ==> s[i] == c
    decreases |s|
  {
    if |s| > 0 && s[|s| - 1] == c then RStrip(s[..|s| - 1], c) else s
  }

  /** Stripping twice strips nothing more. */
  lemma RStripIdempotent(s: string, c: char)
    ensures RStrip(RStrip(s, c), c) == RStrip(s, c)
  {
  }

  /** The three properties in RStrip's contract determine its result. */
  lemma RStripUnique(s: string, c: char, r: string)
    requires |r| <= |s| && r == s[..|r|]
    requires |r| > 0 ==> r[|r| - 1] != c
    requires forall i :: |r| <= i < |s| ==> s[i] == c
    ensures r == RStrip(s, c)
  {
  }
}
