/**
 * What the two edge functions `server` and `admin-login` define identically: the constant-time
 * pin comparison `secureCompare`, the `ALLOWED_ORIGINS` allow-list and `isOriginAllowed`, and the
 * shape of a JSON reply.
 */
module EdgeCommon {
  import opened JsText

  /**
   * A reply of an edge function: the CORS preflight answer "ok", an error with its status and
   * message, or a 200 response carrying `payload`.
   */
  datatype Reply<P> = Preflight | Fail(status: int, error: string) | Success(payload: P)

  function StatusOf<P>(r: Reply<P>): int
  {
    match r
    case Preflight => 200
    case Fail(status, _) => status
    case Success(_) => 200
  }

  // ---------------------------------------------------------------------------------------
  // secureCompare

  /**
   * The UTF-16 code units of `s`, which is what `charCodeAt` reads: a character above U+FFFF
   * becomes a surrogate pair.
   */
  function CodeUnits(s: string): (u: seq<nat>)
    ensures |u| == Utf16Length(s)
  {
    if s == [] then [] else FirstUnits(s) + CodeUnits(s[1..])
  }

  /** The code units of the first character of `s`. */
  function FirstUnits(s: string): (u: seq<nat>)
    requires s != []
    ensures |u| == 1 || |u| == 2
    ensures |u| == 1 <==> s[0] as int <= 0xFFFF
    ensures |u| == 1 ==> !(0xD800 <= u[0] <= 0xDFFF)
    ensures |u| == 2 ==> 0xD800 <= u[0] <= 0xDBFF
  {
    var c := s[0] as int;
    if c <= 0xFFFF then [c]
    else [0xD800 + (c - 0x10000) / 0x400, 0xDC00 + (c - 0x10000) % 0x400]
  }

  /** Two characters with the same UTF-16 units are the same character. */
  lemma FirstUnitsInjective(a: string, b: string)
    requires a != [] && b != [] && FirstUnits(a) == FirstUnits(b)
    ensures a[0] == b[0]
  {
    var x, y := a[0] as int, b[0] as int;
    if x > 0xFFFF {
      assert (x - 0x10000) / 0x400 == (y - 0x10000) / 0x400;
      assert (x - 0x10000) % 0x400 == (y - 0x10000) % 0x400;
    }
  }

  /** UTF-16 is one-to-one: equal code units mean equal strings. */
  lemma {:induction false} CodeUnitsInjective(a: string, b: string)
    requires CodeUnits(a) == CodeUnits(b)
    ensures a == b
    decreases |a|
  {
    if a == [] || b == [] {
      assert Utf16Length(a) == Utf16Length(b);
    } else {
      var ua, ub := FirstUnits(a), FirstUnits(b);
      assert CodeUnits(a) == ua + CodeUnits(a[1..]) && CodeUnits(b) == ub + CodeUnits(b[1..]);
      assert CodeUnits(a)[0] == ua[0] && CodeUnits(b)[0] == ub[0];
      assert |ua| == |ub|;
      assert CodeUnits(a)[..|ua|] == ua && CodeUnits(b)[..|ub|] == ub;
      FirstUnitsInjective(a, b);
      assert CodeUnits(a[1..]) == CodeUnits(a)[|ua|..];
      assert CodeUnits(b[1..]) == CodeUnits(b)[|ub|..];
      CodeUnitsInjective(a[1..], b[1..]);
      assert a == [a[0]] + a[1..] && b == [b[0]] + b[1..];
    }
  }

  /** `x ^ y` on non-negative numbers, bit by bit from the lowest. */
  function Xor(x: nat, y: nat): nat
  {
    if x == 0 && y == 0 then 0 else 2 * Xor(x / 2, y / 2) + (if x % 2 != y % 2 then 1 else 0)
  }

  /** `x | y` on non-negative numbers, bit by bit from the lowest. */
  function Or(x: nat, y: nat): nat
  {
    if x == 0 && y == 0 then 0 else 2 * Or(x / 2, y / 2) + (if x % 2 == 1 || y % 2 == 1 then 1 else 0)
  }

  lemma {:induction false} XorIsZeroIffEqual(x: nat, y: nat)
    ensures Xor(x, y) == 0 <==> x == y
  {
    if !(x == 0 && y == 0) {
      XorIsZeroIffEqual(x / 2, y / 2);
    }
  }

  lemma OrIsZeroIffBothZero(x: nat, y: nat)
    ensures Or(x, y) == 0 <==> x == 0 && y == 0
  {
  }

  /**
   * `secureCompare`: texts of different UTF-16 lengths are told apart at once; otherwise every
   * pair of code units is XOR-ed and OR-ed into `result`, and the texts are equal iff `result`
   * stays 0. Code units are below 2^16, so JavaScript's 32-bit `|=` and `^` act as on naturals.
   */
  method SecureCompare(a: string, b: string) returns (equal: bool)
    ensures equal <==> a == b
    ensures Utf16Length(a) != Utf16Length(b) ==> !equal
  {
    var ua, ub := CodeUnits(a), CodeUnits(b);
    if |ua| != |ub| {
      return false;
    }
    var result: nat := 0;
    var i := 0;
    while i < |ua|
      invariant 0 <= i <= |ua|
      invariant result == 0 <==> ua[..i] == ub[..i]
    {
      assert ua[..i + 1] == ua[..i] + [ua[i]] && ub[..i + 1] == ub[..i] + [ub[i]];
      XorIsZeroIffEqual(ua[i], ub[i]);
      OrIsZeroIffBothZero(result, Xor(ua[i], ub[i]));
      result := Or(result, Xor(ua[i], ub[i]));
      i := i + 1;
    }
    assert ua[..i] == ua && ub[..i] == ub;
    equal := result == 0;
    if equal {
      CodeUnitsInjective(a, b);
    }
  }

  // ---------------------------------------------------------------------------------------
  // The origin allow-list

  /** `.filter(Boolean)` on texts: the non-empty ones, in order. */
  function NonEmpty(parts: seq<string>): (r: seq<string>)
    ensures |r| <= |parts|
    ensures forall s :: s in r <==> s in parts && s != ""
  {
    if parts == [] then []
    else (if parts[0] != "" then [parts[0]] else []) + NonEmpty(parts[1..])
  }

  /** A trimmed piece of a text holds no character the text does not hold. */
  lemma TrimKeepsAbsence(s: string, c: char)
    requires c !in s
    ensures c !in Trim(s)
  {
    var t := TrimStart(s);
    assert forall k :: 0 <= k < |t| ==> t[k] == s[|s| - |t| + k];
    var r := TrimEnd(t);
    assert forall k :: 0 <= k < |r| ==> r[k] == t[k];
  }

  /** The comma-separated pieces of `ALLOWED_ORIGINS`, an unset variable read as "". */
  function OriginPieces(env: Option<string>): seq<string>
  {
    Split(OrElse(env, ""), ',')
  }

  /** `(ALLOWED_ORIGINS ?? "").split(",").map((o) => o.trim()).filter(Boolean)`. */
  function AllowedOrigins(env: Option<string>): (allowed: seq<string>)
    ensures env.None? ==> allowed == []
  {
    UnsetVariableHasNoPieces();
    NonEmpty(TrimAll(OriginPieces(env)))
  }

  /** An unset variable is one empty piece, which trimming keeps empty and the filter drops. */
  lemma UnsetVariableHasNoPieces()
    ensures NonEmpty(TrimAll(OriginPieces(None))) == []
  {
    assert OriginPieces(None) == [""];
    assert Trim("") == "";
    assert TrimAll([""]) == [""];
  }

  /**
   * The entries are exactly the non-empty trimmed pieces of the variable, and none of them
   * holds a comma or starts or ends with a space.
   */
  lemma AllowedOriginsEntries(env: Option<string>)
    ensures forall o :: o in AllowedOrigins(env) <==> o != "" && o in TrimAll(OriginPieces(env))
    ensures forall o :: o in AllowedOrigins(env) ==> ',' !in o && !IsJsSpace(o[0]) && !IsJsSpace(o[|o| - 1])
  {
    forall o | o in AllowedOrigins(env) ensures ',' !in o && !IsJsSpace(o[0]) && !IsJsSpace(o[|o| - 1]) {
      TrimmedPieceShape(OriginPieces(env), o);
    }
  }

  lemma TrimmedPieceShape(pieces: seq<string>, o: string)
    requires forall k :: 0 <= k < |pieces| ==> ',' !in pieces[k]
    requires o != "" && o in TrimAll(pieces)
    ensures ',' !in o && !IsJsSpace(o[0]) && !IsJsSpace(o[|o| - 1])
  {
    var trimmed := TrimAll(pieces);
    var k :| 0 <= k < |trimmed| && trimmed[k] == o;
    TrimKeepsAbsence(pieces[k], ',');
  }

  /**
   * `isOriginAllowed`: a request without an origin (or with an empty one) passes, every origin
   * passes when the list is empty, and otherwise the origin must be one of the entries exactly.
   */
  predicate IsOriginAllowed(origin: Option<string>, allowed: seq<string>)
  {
    origin.None? || origin.value == "" || allowed == [] || origin.value in allowed
  }

  /** With `ALLOWED_ORIGINS` unset, every request passes the origin check. */
  lemma UnsetListAllowsAll(origin: Option<string>)
    ensures IsOriginAllowed(origin, AllowedOrigins(None))
  {
  }

  /**
   * The request's origin is not trimmed: once the list has an entry, an origin with a space at
   * either edge, or with a comma, never passes.
   */
  lemma UntrimmedOriginIsRejected(env: Option<string>, origin: string)
    requires AllowedOrigins(env) != []
    requires origin != "" && (IsJsSpace(origin[0]) || IsJsSpace(origin[|origin| - 1]) || ',' in origin)
    ensures !IsOriginAllowed(Some(origin), AllowedOrigins(env))
  {
    AllowedOriginsEntries(env);
  }

  /** An entry written with spaces around it in the variable admits the trimmed origin. */
  lemma ListedOriginIsAllowed(env: string, k: nat)
    requires k < |OriginPieces(Some(env))| && Trim(OriginPieces(Some(env))[k]) != ""
    ensures IsOriginAllowed(Some(Trim(OriginPieces(Some(env))[k])), AllowedOrigins(Some(env)))
  {
    AllowedOriginsEntries(Some(env));
  }
}
