/**
 * What the services throw, how they read configuration from the environment,
 * and identifier shapes shared by every module.
 */
module Common {
  import opened Wrappers
  import opened Strings
  import opened Js

  /** A thrown value. `HttpError` is the application's own error class
      (status code, message, optional details); the other kinds are what the
      runtime, the database driver or Mongoose throw. */
  datatype Error =
    | HttpError(status: int, message: string, details: JsValue)  // details is Undefined when not given
    | ScriptError(name: string, message: string)                 // Error, TypeError, CastError, ...
    | DuplicateKey(keyValue: JsValue)                            // MongoServerError with code 11000
    | ValidationFailed(message: string, errors: JsValue)         // Mongoose ValidationError and its per-path errors

  type Outcome<T> = Result<T, Error>

  /** `new HttpError(status, message)` */
  function Http(status: int, message: string): (e: Error)
    ensures e.HttpError? && e.status == status && e.message == message && e.details == Undefined
  {
    HttpError(status, message, Undefined)
  }

  /** The catch block of an update or a create without a unique key: an
      HttpError passes through, a validation failure is a 400 `invalid` with
      its per-path errors, anything else a 500 `failed`. */
  function CatchFailure(e: Error, invalid: string, failed: string): (r: Error)
    ensures r.HttpError?
    ensures e.HttpError? ==> r == e
    ensures e.ValidationFailed? ==> r == HttpError(400, invalid, e.errors)
    ensures !e.HttpError? && !e.ValidationFailed? ==> r == Http(500, failed)
  {
    match e
    case HttpError(_, _, _) => e
    case ValidationFailed(_, errors) => HttpError(400, invalid, errors)
    case _ => Http(500, failed)
  }

  /** `err.message` */
  function Message(e: Error): string {
    match e
    case HttpError(_, m, _) => m
    case ScriptError(_, m) => m
    case DuplicateKey(_) => "E11000 duplicate key error"
    case ValidationFailed(m, _) => m
  }

  /** `err.name` */
  function Name(e: Error): (n: string)
    ensures n != ""
  {
    match e
    case HttpError(_, _, _) => "HttpError"
    case ScriptError(n, _) => if n == "" then "Error" else n
    case DuplicateKey(_) => "MongoServerError"
    case ValidationFailed(_, _) => "ValidationError"
  }

  /** `e?.message || String(e)`: the message, or the error's name when the message is empty. */
  function ErrorText(e: Error): (t: string)
    ensures t != ""
    ensures Message(e) != "" ==> t == Message(e)
  {
    if Message(e) != "" then Message(e) else Name(e)
  }

  /** `process.env`: an unset variable is absent from the map. */
  type Vars = map<string, string>

  /** `process.env[name] || fallback` */
  function EnvOr(vars: Vars, name: string, fallback: string): (v: string)
    ensures name in vars && vars[name] != "" ==> v == vars[name]
    ensures !(name in vars && vars[name] != "") ==> v == fallback
  {
    if name in vars && vars[name] != "" then vars[name] else fallback
  }

  /** `${process.env[name]}`: an unset variable prints as "undefined". */
  function EnvText(vars: Vars, name: string): string {
    if name in vars then vars[name] else "undefined"
  }

  /** `mustEnv(name)`: the value, or `Error("Missing env var: <name>")` when unset or empty. */
  function MustEnv(vars: Vars, name: string): (r: Outcome<string>)
    ensures r.Ok? <==> name in vars && vars[name] != ""
    ensures r.Ok? ==> r.value == vars[name]
    ensures r.Err? ==> r.error == ScriptError("Error", "Missing env var: " + name)
  {
    if name in vars && vars[name] != "" then Ok(vars[name])
    else Err(ScriptError("Error", "Missing env var: " + name))
  }

  /** SHA-256 of a text, as lower-case hex; a foreign call, supplied by the caller. */
  type Digest = string -> string

  predicate IsHexChar(c: char) {
    ('0' <= c <= '9') || ('a' <= c <= 'f') || ('A' <= c <= 'F')
  }

  /** `mongoose.Types.ObjectId.isValid(s)` for a string: 24 hexadecimal characters. */
  predicate IsObjectId(s: string) {
    |s| == 24 && forall i :: 0 <= i < |s| ==> IsHexChar(s[i])
  }

  function HexDigit(d: bv8): (c: char)
    requires d < 16
    ensures IsHexChar(c) && !('A' <= c <= 'Z')
  {
    if d < 10 then ('0' as int + d as int) as char else ('a' as int + d as int - 10) as char
  }

  /** `buf.toString("hex")`: two lower-case hexadecimal digits per byte. */
  function Hex(bytes: seq<bv8>): (s: string)
    ensures |s| == 2 * |bytes|
    ensures forall i :: 0 <= i < |s| ==> IsHexChar(s[i]) && !('A' <= s[i] <= 'Z')
  {
    if |bytes| == 0 then ""
    else [HexDigit(bytes[0] >> 4), HexDigit(bytes[0] & 15)] + Hex(bytes[1..])
  }

  /** Each byte is written as its high then its low nibble. */
  lemma {:induction false} HexDigitsOfByte(bytes: seq<bv8>, i: nat)
    requires i < |bytes|
    ensures Hex(bytes)[2 * i] == HexDigit(bytes[i] >> 4)
    ensures Hex(bytes)[2 * i + 1] == HexDigit(bytes[i] & 15)
  {
    if i > 0 {
      HexDigitsOfByte(bytes[1..], i - 1);
    }
  }

  /** Output of `crypto.randomBytes(n)`. */
  type Bytes4 = b: seq<bv8> | |b| == 4 witness [0, 0, 0, 0]
  type Bytes16 = b: seq<bv8> | |b| == 16 witness seq(16, _ => 0)
}
