/** The prompt template store: a table from model to task to template, a
    strict named-placeholder formatter with the semantics of Python's
    `str.format(**kwargs)` on plain `{name}` fields, and the rule that puts
    a conversation history in front of a prompt. */
module PromptTemplates {
  import opened Strings
  import opened Wrappers
  import opened Conversation

  // ----- the formatter -----

  /** What `str.format` and the Python call itself raise: a `ValueError` for
      a malformed template or a field name whose leading digits pass
      `PY_SSIZE_T_MAX`, a `KeyError` for a field with no argument, an
      `IndexError` for a positional field (`{}`, `{0}`) when only keyword
      arguments are given, and a `TypeError` when a keyword argument is
      passed twice. */
  datatype FormatError = MalformedTemplate | MissingKey(name: string) | PositionalIndex | DuplicateArgument

  predicate IsBrace(c: char)
  {
    c == '{' || c == '}'
  }

  /** Neither `{` nor `}` occurs in `s`. */
  predicate BraceFree(s: string)
  {
    '{' !in s && '}' !in s
  }

  /** A field name that `str.format` resolves through the positional
      arguments: empty (automatic numbering) or all decimal digits. */
  predicate IsPositional(name: string)
  {
    name == "" || forall k | 0 <= k < |name| :: '0' <= name[k] <= '9'
  }

  /** The largest `Py_ssize_t` of a 64-bit CPython build. */
  const PY_SSIZE_T_MAX: nat := 0x7fff_ffff_ffff_ffff

  /** CPython reads a field name as a number digit by digit, from position
      `i` with `acc` the value of the digits before it, and raises a
      `ValueError` ("too many decimal digits") as soon as the value would
      pass `PY_SSIZE_T_MAX`, whether or not a non-digit follows. */
  predicate TooManyDigitsFrom(name: string, i: nat, acc: nat)
    requires i <= |name|
    decreases |name| - i
  {
    i < |name| && '0' <= name[i] <= '9'
    && var v := acc * 10 + (name[i] as int - '0' as int);
       v > PY_SSIZE_T_MAX || TooManyDigitsFrom(name, i + 1, v)
  }

  predicate TooManyDigits(name: string)
  {
    TooManyDigitsFrom(name, 0, 0)
  }

  /** The leading `k` characters of `name` are digits whose value passes
      `PY_SSIZE_T_MAX`. */
  predicate OverflowingPrefix(name: string, k: nat)
  {
    k <= |name| && (forall m | 0 <= m < k :: '0' <= name[m] <= '9')
    && DecimalValue(name[..k]) > PY_SSIZE_T_MAX
  }

  /** The digit-by-digit check fails exactly when some run of leading digits
      denotes a number above `PY_SSIZE_T_MAX`. */
  lemma TooManyDigitsValue(name: string)
    ensures TooManyDigits(name) <==> exists k: nat :: OverflowingPrefix(name, k)
  {
    assert name[..0] == [];
    TooManyDigitsFromValue(name, 0);
  }

  lemma {:induction false} TooManyDigitsFromValue(name: string, i: nat)
    requires i <= |name| && forall m | 0 <= m < i :: '0' <= name[m] <= '9'
    requires DecimalValue(name[..i]) <= PY_SSIZE_T_MAX
    ensures TooManyDigitsFrom(name, i, DecimalValue(name[..i])) <==> exists k: nat :: OverflowingPrefix(name, k)
    decreases |name| - i
  {
    var acc := DecimalValue(name[..i]);
    if i < |name| && '0' <= name[i] <= '9' {
      var v := acc * 10 + (name[i] as int - '0' as int);
      assert name[..i + 1][..i] == name[..i];
      assert DecimalValue(name[..i + 1]) == v;
      if v > PY_SSIZE_T_MAX {
        assert OverflowingPrefix(name, i + 1);
      } else {
        TooManyDigitsFromValue(name, i + 1);
      }
    } else {
      forall k: nat | OverflowingPrefix(name, k) ensures false {
        assert k <= i by {
          assert i < |name| ==> !('0' <= name[i] <= '9');
        }
        PrefixValueBound(name, k, i);
      }
    }
  }

  /** A shorter run of leading digits has no larger value. */
  lemma {:induction false} PrefixValueBound(name: string, k: nat, i: nat)
    requires k <= i <= |name| && forall m | 0 <= m < i :: '0' <= name[m] <= '9'
    ensures DecimalValue(name[..k]) <= DecimalValue(name[..i])
    decreases i - k
  {
    if k < i {
      PrefixValueBound(name, k, i - 1);
      assert name[..i][..i - 1] == name[..i - 1];
    }
  }

  function Pow10(n: nat): (p: nat)
    ensures p >= 1
  {
    if n == 0 then 1 else 10 * Pow10(n - 1)
  }

  lemma {:induction false} Pow10Monotone(m: nat, n: nat)
    requires m <= n
    ensures Pow10(m) <= Pow10(n)
    decreases n - m
  {
    if m < n {
      Pow10Monotone(m, n - 1);
    }
  }

  /** The two powers of ten around `PY_SSIZE_T_MAX`. */
  lemma Pow10Bounds()
    ensures Pow10(18) == 1_000_000_000_000_000_000 < PY_SSIZE_T_MAX
    ensures Pow10(19) == 10_000_000_000_000_000_000 > PY_SSIZE_T_MAX
  {
    assert Pow10(6) == 1_000_000;
    assert Pow10(12) == 1_000_000_000_000;
  }

  /** `k` decimal digits denote less than `10^k`. */
  lemma {:induction false} DecimalBelow(s: string)
    requires forall m | 0 <= m < |s| :: '0' <= s[m] <= '9'
    ensures DecimalValue(s) < Pow10(|s|)
  {
    if s != [] {
      DecimalBelow(s[..|s| - 1]);
    }
  }

  /** `k` decimal digits with a leading digit other than `0` denote at least
      `10^(k-1)`. */
  lemma {:induction false} DecimalAbove(s: string)
    requires s != [] && s[0] != '0' && forall m | 0 <= m < |s| :: '0' <= s[m] <= '9'
    ensures DecimalValue(s) >= Pow10(|s| - 1)
  {
    if |s| > 1 {
      var f := s[..|s| - 1];
      assert f[0] == s[0];
      DecimalAbove(f);
    } else {
      assert s[..0] == [];
    }
  }

  /** A name of at most eighteen characters never has too many digits: every
      index it can spell fits a `Py_ssize_t`. */
  lemma ShortNamesFit(name: string)
    requires |name| <= 18
    ensures !TooManyDigits(name)
  {
    TooManyDigitsValue(name);
    forall k: nat | OverflowingPrefix(name, k) ensures false {
      DecimalBelow(name[..k]);
      Pow10Monotone(k, 18);
      Pow10Bounds();
    }
  }

  /** A name that starts with twenty digits, the first not `0`, has too many
      digits, whatever follows them. */
  lemma LongNumbersOverflow(name: string)
    requires |name| >= 20 && name[0] != '0' && forall m | 0 <= m < 20 :: '0' <= name[m] <= '9'
    ensures TooManyDigits(name)
  {
    var p := name[..20];
    assert p[0] == name[0];
    DecimalAbove(p);
    Pow10Bounds();
    assert OverflowingPrefix(name, 20);
    TooManyDigitsValue(name);
  }

  /** Position of the first brace at or after `i`, or `|t|` if there is none. */
  function NextBrace(t: string, i: nat): (j: nat)
    requires i <= |t|
    ensures i <= j <= |t|
    ensures j < |t| ==> IsBrace(t[j])
    decreases |t| - i
  {
    if i == |t| || IsBrace(t[i]) then i else NextBrace(t, i + 1)
  }

  lemma {:induction false} NextBraceAt(t: string, i: nat, j: nat)
    requires i <= j < |t| && IsBrace(t[j])
    requires forall k | i <= k < j :: !IsBrace(t[k])
    ensures NextBrace(t, i) == j
    decreases j - i
  {
    if i < j {
      NextBraceAt(t, i + 1, j);
    }
  }

  /** Put `s` in front of a successful result; keep a failure. */
  function Prepend(s: string, r: Result<string, FormatError>): Result<string, FormatError>
  {
    match r
    case Success(v) => Success(s + v)
    case Failure(e) => Failure(e)
  }

  lemma PrependPrepend(a: string, b: string, r: Result<string, FormatError>)
    ensures Prepend(a, Prepend(b, r)) == Prepend(a + b, r)
  {
    if r.Success? {
      assert a + (b + r.value) == (a + b) + r.value;
    }
  }

  lemma PrependEmpty(r: Result<string, FormatError>)
    ensures Prepend("", r) == r
  {
    if r.Success? {
      assert "" + r.value == r.value;
    }
  }

  /** The formatter's scan of `t` from position `i`, as CPython reads a
      template left to right: `}}` stands for a single brace, a `{` starts
      a field (or the escape `{{`), other characters are copied, and the
      first malformed or unresolvable field ends the call with its error. */
  function FormatFrom(t: string, i: nat, args: map<string, string>): Result<string, FormatError>
    requires i <= |t|
    decreases |t| - i, 1
  {
    if i == |t| then Success("")
    else if t[i] == '{' then FormatField(t, i, args)
    else if t[i] == '}' then
      if i + 1 < |t| && t[i + 1] == '}' then Prepend("}", FormatFrom(t, i + 2, args))
      else Failure(MalformedTemplate)
    else Prepend([t[i]], FormatFrom(t, i + 1, args))
  }

  /** The scan at a `{`: `{{` stands for a single brace; otherwise the field
      name runs to the next brace, which must be a `}`, and `{name}` is
      replaced by `args[name]` (the replacement is not scanned again). */
  function FormatField(t: string, i: nat, args: map<string, string>): Result<string, FormatError>
    requires i < |t| && t[i] == '{'
    decreases |t| - i, 0
  {
    if i + 1 < |t| && t[i + 1] == '{' then Prepend("{", FormatFrom(t, i + 2, args))
    else
      var j := NextBrace(t, i + 1);
      if j == |t| || t[j] == '{' then Failure(MalformedTemplate)
      else
        var name := t[i + 1..j];
        if TooManyDigits(name) then Failure(MalformedTemplate)
        else if IsPositional(name) then Failure(PositionalIndex)
        else if name !in args then Failure(MissingKey(name))
        else Prepend(args[name], FormatFrom(t, j + 1, args))
  }

  /** `t.format(**args)`: the scan from the start; it never reports a
      duplicate argument, which is the call's error, not the template's. */
  function Format(t: string, args: map<string, string>): (r: Result<string, FormatError>)
    ensures r != Failure(DuplicateArgument)
  {
    FormatNeverDuplicate(t, 0, args);
    FormatFrom(t, 0, args)
  }

  /** The formatter never reports a duplicate argument: that error belongs
      to the call, not to the template. */
  lemma {:induction false} FormatNeverDuplicate(t: string, i: nat, args: map<string, string>)
    requires i <= |t|
    ensures FormatFrom(t, i, args) != Failure(DuplicateArgument)
    decreases |t| - i
  {
    if i < |t| {
      if t[i] == '{' && !(i + 1 < |t| && t[i + 1] == '{') {
        var j := NextBrace(t, i + 1);
        if j < |t| && t[j] == '}' {
          FormatNeverDuplicate(t, j + 1, args);
        }
      } else if i + 1 < |t| && IsBrace(t[i]) && t[i + 1] == t[i] {
        FormatNeverDuplicate(t, i + 2, args);
      } else if !IsBrace(t[i]) {
        FormatNeverDuplicate(t, i + 1, args);
      }
    }
  }

  /** A character that is not a brace formats as itself. */
  lemma FormatPlainAt(t: string, i: nat, args: map<string, string>)
    requires i < |t| && !IsBrace(t[i])
    ensures FormatFrom(t, i, args) == Prepend([t[i]], FormatFrom(t, i + 1, args))
  {
  }

  /** `{{` formats as `{` and `}}` as `}`. */
  lemma FormatDoubledAt(t: string, i: nat, args: map<string, string>)
    requires i + 1 < |t| && IsBrace(t[i]) && t[i + 1] == t[i]
    ensures FormatFrom(t, i, args) == Prepend([t[i]], FormatFrom(t, i + 2, args))
  {
  }

  /** A `}` that is not doubled is a malformed template. */
  lemma FormatStrayClose(t: string, i: nat, args: map<string, string>)
    requires i < |t| && t[i] == '}' && (i + 1 == |t| || t[i + 1] != '}')
    ensures FormatFrom(t, i, args) == Failure(MalformedTemplate)
  {
  }

  /** A `{` at position `i` that does not start `{{` and is followed by no
      other brace opens a field that never closes: a malformed template. */
  lemma FormatUnclosedAt(t: string, i: nat, args: map<string, string>)
    requires i < |t| && t[i] == '{'
    requires forall k | i < k < |t| :: !IsBrace(t[k])
    ensures FormatFrom(t, i, args) == Failure(MalformedTemplate)
  {
    NextBraceTail(t, i + 1);
  }

  /** A field name running into another `{` (as in `{a{b}`) is a malformed
      template. */
  lemma FormatOpenInName(t: string, i: nat, j: nat, args: map<string, string>)
    requires i + 1 < j < |t| && t[i] == '{' && t[j] == '{'
    requires forall k | i < k < j :: !IsBrace(t[k])
    ensures FormatFrom(t, i, args) == Failure(MalformedTemplate)
  {
    NextBraceAt(t, i + 1, j);
  }

  /** An unclosed field after other text, and a `{` inside a field name. */
  lemma MalformedExamples(args: map<string, string>)
    ensures Format("ab{cd", args) == Failure(MalformedTemplate)
    ensures Format("{a{b}", args) == Failure(MalformedTemplate)
  {
    var t := "ab{cd";
    FormatUnclosedAt(t, 2, args);
    FormatPlainAt(t, 1, args);
    FormatPlainAt(t, 0, args);
    FormatOpenInName("{a{b}", 0, 2, args);
  }

  /** A field with a twenty-digit index is a `ValueError`, not an
      `IndexError`. */
  lemma TwentyDigitField(args: map<string, string>)
    ensures Format("{99999999999999999999}", args) == Failure(MalformedTemplate)
  {
    var n := "99999999999999999999";
    assert "{99999999999999999999}" == "{" + n + "}";
    LongNumbersOverflow(n);
    FormatFieldAt("{" + n + "}", 0, n, args);
  }

  /** With no brace at or after `i`, the next brace is the end. */
  lemma {:induction false} NextBraceTail(t: string, i: nat)
    requires i <= |t|
    requires forall k | i <= k < |t| :: !IsBrace(t[k])
    ensures NextBrace(t, i) == |t|
    decreases |t| - i
  {
    if i < |t| {
      NextBraceTail(t, i + 1);
    }
  }

  /** At position `i`, a field `{n}` with a brace-free name: a name whose
      leading digits pass `PY_SSIZE_T_MAX` is a `ValueError`, other
      positional names are an `IndexError`, names without an argument a
      `KeyError`, and otherwise the argument is put in. */
  lemma FormatFieldAt(t: string, i: nat, n: string, args: map<string, string>)
    requires BraceFree(n) && i + |n| + 2 <= |t| && t[i..i + |n| + 2] == "{" + n + "}"
    ensures FormatFrom(t, i, args)
      == if TooManyDigits(n) then Failure(MalformedTemplate)
         else if IsPositional(n) then Failure(PositionalIndex)
         else if n !in args then Failure(MissingKey(n))
         else Prepend(args[n], FormatFrom(t, i + |n| + 2, args))
  {
    var f := "{" + n + "}";
    var j := i + |n| + 1;
    assert t[i] == f[0] && t[j] == f[|n| + 1];
    forall k | i + 1 <= k < j ensures t[k] == n[k - i - 1] && !IsBrace(t[k]) {
      assert t[k] == f[k - i] == n[k - i - 1];
      assert n[k - i - 1] in n;
    }
    NextBraceAt(t, i + 1, j);
    assert t[i + 1..j] == n by {
      forall m | 0 <= m < |n| ensures t[i + 1..j][m] == n[m] {
        assert t[i + 1..j][m] == t[i + 1 + m];
      }
    }
    if n != [] {
      assert t[i + 1] == n[0] && n[0] in n;
    }
  }

  // ----- templates as sequences of pieces (the partner of Format) -----

  /** A template read as literal text and named fields. */
  datatype Piece = Lit(text: string) | Field(name: string)

  /** A name a `{name}` field can carry: no braces, not positional, and no
      run of leading digits too large for CPython to read. */
  predicate ValidName(name: string)
  {
    BraceFree(name) && !IsPositional(name) && !TooManyDigits(name)
  }

  /** Every field of the pieces has a valid name. */
  predicate ValidPieces(ps: seq<Piece>)
    decreases |ps|
  {
    ps == [] || ((ps[0].Field? ==> ValidName(ps[0].name)) && ValidPieces(ps[1..]))
  }

  /** One character of literal text as a template writes it: braces doubled. */
  function EscapeChar(c: char): (e: string)
    ensures |e| > 0 && e[0] == c
  {
    if IsBrace(c) then [c, c] else [c]
  }

  /** Literal text as a template writes it. */
  function Escape(s: string): string
  {
    if s == [] then "" else EscapeChar(s[0]) + Escape(s[1..])
  }

  /** Text without braces needs no escaping. */
  lemma {:induction false} EscapeBraceFree(s: string)
    requires BraceFree(s)
    ensures Escape(s) == s
  {
    if s != [] {
      assert s[0] in s;
      assert BraceFree(s[1..]) by {
        assert forall c | c in s[1..] :: c in s;
      }
      EscapeBraceFree(s[1..]);
      assert [s[0]] + s[1..] == s;
    }
  }

  function PieceText(p: Piece): string
  {
    match p
    case Lit(s) => Escape(s)
    case Field(n) => "{" + n + "}"
  }

  /** The template text of a piece sequence. */
  function Unparse(ps: seq<Piece>): string
  {
    if ps == [] then "" else PieceText(ps[0]) + Unparse(ps[1..])
  }

  /** The names of the fields of a piece sequence. */
  function FieldNames(ps: seq<Piece>): set<string>
  {
    if ps == [] then {} else (if ps[0].Field? then {ps[0].name} else {}) + FieldNames(ps[1..])
  }

  /** One piece put in front of the rendering of the pieces after it: a
      field without an argument is a missing key. */
  function RenderPiece(p: Piece, rest: Result<string, FormatError>, args: map<string, string>): Result<string, FormatError>
  {
    match p
    case Lit(s) => Prepend(s, rest)
    case Field(n) => if n !in args then Failure(MissingKey(n)) else Prepend(args[n], rest)
  }

  /** Fill the pieces left to right: literal text as it is, each field with
      its argument; the first field without an argument is a missing key. */
  function Render(ps: seq<Piece>, args: map<string, string>): Result<string, FormatError>
  {
    if ps == [] then Success("") else RenderPiece(ps[0], Render(ps[1..], args), args)
  }

  /** Rendering succeeds exactly when every field has an argument, and
      otherwise reports a field that has none. */
  lemma {:induction false} RenderOutcome(ps: seq<Piece>, args: map<string, string>)
    ensures Render(ps, args).Success? <==> FieldNames(ps) <= args.Keys
    ensures Render(ps, args).Failure? ==>
      Render(ps, args).error.MissingKey? && Render(ps, args).error.name in FieldNames(ps)
      && Render(ps, args).error.name !in args
  {
    if ps == [] {
      assert FieldNames(ps) == {};
    } else {
      RenderOutcome(ps[1..], args);
    }
  }

  /** A slice holding two texts one after the other holds each of them. */
  lemma SliceSplit(t: string, i: nat, a: string, b: string)
    requires i + |a| + |b| <= |t| && t[i..i + |a| + |b|] == a + b
    ensures t[i..i + |a|] == a && t[i + |a|..i + |a| + |b|] == b
  {
    assert t[i..i + |a|] == t[i..i + |a| + |b|][..|a|];
    assert t[i + |a|..i + |a| + |b|] == t[i..i + |a| + |b|][|a|..];
  }

  /** Escaped text at position `i` starts with the escaped first character,
      which is followed by the escaped rest. */
  lemma EscapeAtSplit(t: string, i: nat, s: string)
    requires s != [] && i + |Escape(s)| <= |t| && t[i..i + |Escape(s)|] == Escape(s)
    ensures t[i] == s[0]
    ensures IsBrace(s[0]) ==> i + 1 < |t| && t[i + 1] == s[0]
    ensures i + |EscapeChar(s[0])| + |Escape(s[1..])| == i + |Escape(s)|
    ensures t[i + |EscapeChar(s[0])|..i + |Escape(s)|] == Escape(s[1..])
  {
    var e := EscapeChar(s[0]);
    var rest := Escape(s[1..]);
    assert Escape(s) == e + rest;
    SliceSplit(t, i, e, rest);
    assert t[i] == t[i..i + |e|][0];
    if IsBrace(s[0]) {
      assert t[i + 1] == t[i..i + |e|][1];
    }
  }

  /** Formatting escaped literal text at position `i` yields the text itself. */
  lemma {:induction false} FormatEscapeAt(t: string, i: nat, s: string, args: map<string, string>)
    requires i + |Escape(s)| <= |t| && t[i..i + |Escape(s)|] == Escape(s)
    ensures FormatFrom(t, i, args) == Prepend(s, FormatFrom(t, i + |Escape(s)|, args))
    decreases |s|
  {
    if s == [] {
      PrependEmpty(FormatFrom(t, i, args));
    } else {
      var k := i + |EscapeChar(s[0])|;
      var m := i + |Escape(s)|;
      var r := FormatFrom(t, m, args);
      EscapeAtSplit(t, i, s);
      assert FormatFrom(t, k, args) == Prepend(s[1..], r) by {
        FormatEscapeAt(t, k, s[1..], args);
      }
      assert FormatFrom(t, i, args) == Prepend([s[0]], FormatFrom(t, k, args)) by {
        if IsBrace(s[0]) {
          FormatDoubledAt(t, i, args);
        } else {
          FormatPlainAt(t, i, args);
        }
      }
      assert Prepend([s[0]], Prepend(s[1..], r)) == Prepend(s, r) by {
        PrependPrepend([s[0]], s[1..], r);
        assert [s[0]] + s[1..] == s;
      }
    }
  }

  /** Formatting the text of one valid piece at position `i`. */
  lemma FormatPieceAt(t: string, i: nat, k: nat, p: Piece, args: map<string, string>)
    requires p.Field? ==> ValidName(p.name)
    requires k == i + |PieceText(p)| <= |t| && t[i..k] == PieceText(p)
    ensures FormatFrom(t, i, args) == RenderPiece(p, FormatFrom(t, k, args), args)
  {
    match p
    case Lit(s) =>
      FormatEscapeAt(t, i, s, args);
    case Field(n) =>
      FormatFieldAt(t, i, n, args);
  }

  /** The texts of the pieces lie one after another in `t` from position
      `i` to its end. */
  predicate PiecesAt(t: string, i: nat, ps: seq<Piece>)
    decreases |ps|
  {
    if ps == [] then i == |t|
    else
      var k := i + |PieceText(ps[0])|;
      k <= |t| && t[i..k] == PieceText(ps[0]) && PiecesAt(t, k, ps[1..])
  }

  /** The text of the pieces, after any prefix, lies at the prefix's end. */
  lemma {:induction false} UnparsePiecesAt(a: string, ps: seq<Piece>)
    ensures PiecesAt(a + Unparse(ps), |a|, ps)
    decreases |ps|
  {
    if ps != [] {
      var h := PieceText(ps[0]);
      var r := Unparse(ps[1..]);
      assert a + Unparse(ps) == (a + h) + r;
      assert ((a + h) + r)[|a|..|a| + |h|] == h;
      UnparsePiecesAt(a + h, ps[1..]);
    }
  }

  /** Valid pieces: the first field's name is valid, and so are the rest. */
  lemma ValidPiecesCons(ps: seq<Piece>)
    requires ps != [] && ValidPieces(ps)
    ensures ps[0].Field? ==> ValidName(ps[0].name)
    ensures ValidPieces(ps[1..])
  {
  }

  /** Rendering puts the first piece in front of the rendering of the rest. */
  lemma RenderCons(ps: seq<Piece>, args: map<string, string>)
    requires ps != []
    ensures Render(ps, args) == RenderPiece(ps[0], Render(ps[1..], args), args)
  {
  }

  /** Formatting the text of valid pieces from position `i` renders them. */
  lemma {:induction false} FormatUnparseAt(t: string, i: nat, ps: seq<Piece>, args: map<string, string>)
    requires ValidPieces(ps) && i <= |t| && PiecesAt(t, i, ps)
    ensures FormatFrom(t, i, args) == Render(ps, args)
    decreases ps
  {
    if ps != [] {
      var k := i + |PieceText(ps[0])|;
      ValidPiecesCons(ps);
      FormatUnparseAt(t, k, ps[1..], args);
      FormatPieceAt(t, i, k, ps[0], args);
      RenderCons(ps, args);
    }
  }

  /** Format is a left inverse of Unparse on valid pieces: formatting the
      text of the pieces renders them. */
  lemma FormatUnparse(ps: seq<Piece>, args: map<string, string>)
    requires ValidPieces(ps)
    ensures Format(Unparse(ps), args) == Render(ps, args)
  {
    UnparsePiecesAt("", ps);
    assert "" + Unparse(ps) == Unparse(ps);
    FormatUnparseAt(Unparse(ps), 0, ps, args);
  }

  /** A template without braces formats to itself. */
  lemma FormatBraceFree(t: string, args: map<string, string>)
    requires BraceFree(t)
    ensures Format(t, args) == Success(t)
  {
    EscapeBraceFree(t);
    FormatEscapeAt(t, 0, t, args);
    assert t + "" == t;
  }

  /** Arguments for names the pieces do not use change nothing. */
  lemma {:induction false} RenderIgnoresUnused(ps: seq<Piece>, args: map<string, string>, k: string, v: string)
    requires k !in FieldNames(ps)
    ensures Render(ps, args[k := v]) == Render(ps, args)
  {
    if ps != [] {
      RenderIgnoresUnused(ps[1..], args, k, v);
    }
  }

  /** A successful rendering contains the argument of every field verbatim. */
  lemma {:induction false} RenderContains(ps: seq<Piece>, args: map<string, string>, n: string)
    requires n in FieldNames(ps) && Render(ps, args).Success?
    ensures n in args && Contains(Render(ps, args).value, args[n])
  {
    var rest := Render(ps[1..], args);
    if ps[0] == Field(n) {
      assert Render(ps, args).value == args[n] + rest.value;
      ContainsFront(args[n], rest.value);
    } else {
      var head := if ps[0].Lit? then ps[0].text else args[ps[0].name];
      assert Render(ps, args).value == head + rest.value;
      RenderContains(ps[1..], args, n);
      ContainsBack(head, rest.value, args[n]);
    }
  }

  // ----- fill_template -----

  /** `fill_template(template, query, **extra)`: the template formatted with
      `query` and the extras; an extra named like one of the function's own
      parameters is a duplicate argument. */
  function FillTemplate(template: string, query: string, extra: map<string, string>): (r: Result<string, FormatError>)
    ensures ("template" in extra || "query" in extra) <==> r == Failure(DuplicateArgument)
  {
    if "template" in extra || "query" in extra then Failure(DuplicateArgument)
    else
      Format(template, extra["query" := query])
  }

  /** Filling the text of valid pieces renders them with the query added to
      the extras. */
  lemma FillUnparse(ps: seq<Piece>, query: string, extra: map<string, string>)
    requires ValidPieces(ps) && "template" !in extra && "query" !in extra
    ensures FillTemplate(Unparse(ps), query, extra) == Render(ps, extra["query" := query])
  {
    FormatUnparse(ps, extra["query" := query]);
  }

  /** Text without braces followed by a `{query}` field fills to that text
      followed by the query, as `fill_template("Hello {query}", "world")`
      gives `"Hello world"`. */
  lemma FillPrefixQuery(prefix: string, q: string)
    requires BraceFree(prefix)
    ensures FillTemplate(prefix + "{query}", q, map[]) == Success(prefix + q)
  {
    UnparsePrefixQuery(prefix);
    FillPrefixQueryPieces(prefix, q);
  }

  lemma UnparsePrefixQuery(prefix: string)
    requires BraceFree(prefix)
    ensures Unparse([Lit(prefix), Field("query")]) == prefix + "{query}"
  {
    var ps := [Lit(prefix), Field("query")];
    EscapeBraceFree(prefix);
    assert Unparse(ps[1..]) == "{query}";
  }

  lemma FillPrefixQueryPieces(prefix: string, q: string)
    ensures FillTemplate(Unparse([Lit(prefix), Field("query")]), q, map[]) == Success(prefix + q)
  {
    var ps := [Lit(prefix), Field("query")];
    assert ValidPieces(ps) by { assert "query"[0] == 'q'; }
    FillUnparse(ps, q, map[]);
    assert Render(ps[1..], map["query" := q]) == Success(q + "");
    assert q + "" == q;
  }

  lemma FillHello(q: string)
    ensures FillTemplate("Hello {query}", q, map[]) == Success("Hello " + q)
  {
    assert BraceFree("Hello ");
    FillPrefixQuery("Hello ", q);
    assert "Hello " + "{query}" == "Hello {query}";
  }

  // ----- which `{name}` fields a template has -----

  /** Every literal piece is free of braces, as in all templates of the table. */
  predicate LitsBraceFree(ps: seq<Piece>)
    decreases |ps|
  {
    ps == [] || ((ps[0].Lit? ==> BraceFree(ps[0].text)) && LitsBraceFree(ps[1..]))
  }

  /** A `{n}` at the start of `{m}...` with both names brace-free is `{m}` itself. */
  lemma SameField(n: string, m: string, rest: string)
    requires BraceFree(n) && BraceFree(m)
    ensures OccursAt("{" + m + "}" + rest, "{" + n + "}", 0) ==> n == m
  {
    var a := "{" + n + "}";
    var b := "{" + m + "}" + rest;
    if |n| < |m| {
      assert a[|n| + 1] == '}';
      assert b[|n| + 1] == m[|n|] && m[|n|] in m;
      assert b[0..|a|][|n| + 1] == b[|n| + 1];
    } else if |n| > |m| {
      assert b[|m| + 1] == '}';
      assert a[|m| + 1] == n[|m|] && n[|m|] in n;
      assert |a| <= |b| ==> b[0..|a|][|m| + 1] == b[|m| + 1];
    } else {
      assert a[1..|n| + 1] == n && b[1..|m| + 1] == m;
      assert |a| <= |b| ==> b[0..|a|][1..|n| + 1] == b[1..|m| + 1];
    }
  }

  /** An occurrence of `{n}` that starts inside the text of a valid piece
      with brace-free literal text starts that piece, which is `{n}` itself. */
  lemma HeadOccurrence(p: Piece, r: string, n: string, i: nat)
    requires p.Field? ==> ValidName(p.name)
    requires p.Lit? ==> BraceFree(p.text)
    requires BraceFree(n) && i < |PieceText(p)|
    ensures OccursAt(PieceText(p) + r, "{" + n + "}", i) ==> p == Field(n)
  {
    var sub := "{" + n + "}";
    var t := PieceText(p) + r;
    assert sub[0] == '{';
    assert OccursAt(t, sub, i) ==> t[i] == sub[0];
    match p
    case Lit(s) =>
      EscapeBraceFree(s);
      assert t[i] == s[i] && s[i] in s;
    case Field(m) =>
      if i == 0 {
        assert t == "{" + m + "}" + r;
        SameField(n, m, r);
      } else if i <= |m| {
        assert t[i] == m[i - 1] && m[i - 1] in m;
      } else {
        assert t[i] == '}';
      }
  }

  /** An occurrence of `{n}` in the text of a piece followed by more text
      is the piece itself or lies in the text that follows. */
  lemma OccurrenceCase(p: Piece, r: string, n: string, i: nat)
    requires p.Field? ==> ValidName(p.name)
    requires p.Lit? ==> BraceFree(p.text)
    requires BraceFree(n) && OccursAt(PieceText(p) + r, "{" + n + "}", i)
    ensures p == Field(n) || Contains(r, "{" + n + "}")
  {
    var sub := "{" + n + "}";
    var h := PieceText(p);
    if i >= |h| {
      OccursInSuffix(h, r, sub, i);
      ContainsAt(r, sub, i - |h|);
    } else {
      HeadOccurrence(p, r, n, i);
    }
  }

  /** An occurrence of `{n}` in the text of pieces lies in the first piece
      or in the text of the others. */
  lemma SplitOccurrence(ps: seq<Piece>, n: string)
    requires ps != [] && ValidPieces(ps) && LitsBraceFree(ps) && ValidName(n)
    ensures Contains(Unparse(ps), "{" + n + "}") ==> ps[0] == Field(n) || Contains(Unparse(ps[1..]), "{" + n + "}")
  {
    var sub := "{" + n + "}";
    var t := Unparse(ps);
    if Contains(t, sub) {
      var i :| 0 <= i <= |t| - |sub| && OccursAt(t, sub, i);
      assert t == PieceText(ps[0]) + Unparse(ps[1..]);
      OccurrenceCase(ps[0], Unparse(ps[1..]), n, i);
    }
  }

  /** A field's `{n}` occurs in the text of the pieces. */
  lemma {:induction false} FieldTextOccurs(ps: seq<Piece>, n: string)
    requires n in FieldNames(ps)
    ensures Contains(Unparse(ps), "{" + n + "}")
  {
    if ps[0] == Field(n) {
      ContainsFront(PieceText(ps[0]), Unparse(ps[1..]));
    } else {
      FieldTextOccurs(ps[1..], n);
      ContainsBack(PieceText(ps[0]), Unparse(ps[1..]), "{" + n + "}");
    }
  }

  /** Only a field's own text makes `{n}` occur in the text of the pieces. */
  lemma {:induction false} OccurrenceIsField(ps: seq<Piece>, n: string)
    requires ValidPieces(ps) && LitsBraceFree(ps) && ValidName(n)
    ensures Contains(Unparse(ps), "{" + n + "}") ==> n in FieldNames(ps)
  {
    if ps != [] {
      OccurrenceIsField(ps[1..], n);
      SplitOccurrence(ps, n);
    }
  }

  /** In the text of valid pieces with brace-free literals, `{n}` occurs
      exactly when `n` names one of the fields: the test `"{history}" in
      template` asks whether the template has a `history` field. */
  lemma FieldOccurs(ps: seq<Piece>, n: string)
    requires ValidPieces(ps) && LitsBraceFree(ps) && ValidName(n)
    ensures Contains(Unparse(ps), "{" + n + "}") <==> n in FieldNames(ps)
  {
    OccurrenceIsField(ps, n);
    if n in FieldNames(ps) {
      FieldTextOccurs(ps, n);
    }
  }

  // ----- the template table -----

  /** The shared opening of the SQL and chart templates: the target table
      and the `{columns}`, `{reference_info}`, `{history}` and `{query}`
      fields, one per comment line. */
  function SqlHeader(): seq<Piece>
  {
    HeaderShape(TableLine(), ReferenceLine(), HistoryLine(), QuestionLine())
  }

  /** The target table line and the opening of the columns line. */
  function TableLine(): string
  {
    "-- \U{76ee}\U{6a19}\U{8cc7}\U{6599}\U{8868}\U{ff1a}emergence.emergency_calls\n-- \U{53ef}\U{4f7f}\U{7528}\U{7684}\U{6b04}\U{4f4d}\U{ff1a}"
  }

  function ReferenceLine(): string
  {
    "\n-- \U{53c3}\U{8003}\U{8cc7}\U{6599}\U{ff1a}"
  }

  function HistoryLine(): string
  {
    "\n-- \U{65e2}\U{5f80}\U{751f}\U{6210}\U{7d00}\U{9304}\U{ff1a}"
  }

  function QuestionLine(): string
  {
    "\n-- \U{4f7f}\U{7528}\U{8005}\U{554f}\U{984c}\U{ff1a}"
  }

  /** Literal text followed by a field. */
  function LitField(text: string, name: string): seq<Piece>
  {
    [Lit(text), Field(name)]
  }

  /** `SQL_TEMPLATE`: the header, then the request for a complete SQL statement. */
  function SqlPieces(): seq<Piece>
  {
    SqlHeader() + [Lit(SqlRequest())]
  }

  function SqlRequest(): string
  {
    "\n\U{8acb}\U{6839}\U{64da}\U{4e0a}\U{8ff0}\U{8cc7}\U{8a0a}\U{8f38}\U{51fa}\U{5b8c}\U{6574} SQL \U{8a9e}\U{53e5}\U{ff0c}\U{50c5}\U{56de}\U{50b3} SQL\U{3002}"
  }

  /** `CHART_TEMPLATE`: the header, then the request for SQL fit for a chart comparison. */
  function ChartPieces(): seq<Piece>
  {
    SqlHeader() + [Lit(ChartRequest())]
  }

  function ChartRequest(): string
  {
    "\n\U{8acb}\U{6839}\U{64da}\U{4e0a}\U{8ff0}\U{8cc7}\U{8a0a}\U{8f38}\U{51fa}\U{53ef}\U{63a1}\U{7528}\U{65bc}\U{5716}\U{8868}\U{6bd4}\U{8f03}\U{7684} SQL \U{8a9e}\U{53e5}\U{ff0c}\U{50c5}\U{56de}\U{50b3} SQL\U{3002}"
  }

  /** The `nlp` template: the `{results}` of a query, then the `{query}` to
      answer. Its texts are written in short pieces so that each can be
      checked for braces on its own. */
  function NlpPieces(): seq<Piece>
  {
    NlpShape(NlpOpening(), NlpQuestion(), NlpClosing())
  }

  /** Text, `{results}`, text, `{query}`, text. */
  function NlpShape(a: string, b: string, c: string): seq<Piece>
  {
    LitField(a, "results") + LitField(b, "query") + [Lit(c)]
  }

  function NlpOpening(): string
  {
    "Given the SQL" + " query results:\n"
  }

  function NlpQuestion(): string
  {
    "\nAnswer the question: "
  }

  function NlpClosing(): string
  {
    " in a friendly" + " and helpful way." + " Interpret the" + " meaning of the"
    + " results yourself" + " and do not state" + " that the meaning" + " is unclear."
  }

  /** The template `load_template` falls back to: the query alone. */
  function FallbackPieces(): seq<Piece>
  {
    [Field("query")]
  }

  /** The templates the table shares between its entries, and the fallback. */
  datatype Template = SqlTemplate | ChartTemplate | NlpTemplate | QueryOnly

  function Pieces(tp: Template): seq<Piece>
  {
    match tp
    case SqlTemplate => SqlPieces()
    case ChartTemplate => ChartPieces()
    case NlpTemplate => NlpPieces()
    case QueryOnly => FallbackPieces()
  }

  /** `PROMPT_TEMPLATES`: model name to task to template. Every model has
      `sql` and `chart`; only the two qwen2.5-coder models and llama3.2 have
      `nlp`. */
  function PromptTable(): (table: map<string, map<string, Template>>)
    ensures forall m :: m in table <==> KnownModel(m)
    ensures forall m | m in table :: table[m].Keys == if NlpModel(m) then {"sql", "chart", "nlp"} else {"sql", "chart"}
    ensures forall m | m in table ::
      table[m]["sql"] == SqlTemplate && table[m]["chart"] == ChartTemplate
      && (NlpModel(m) ==> table[m]["nlp"] == NlpTemplate)
  {
    var sqlChart := map["sql" := SqlTemplate, "chart" := ChartTemplate];
    var withNlp := sqlChart["nlp" := NlpTemplate];
    map["phi3:3.8b" := sqlChart,
        "qwen2.5-coder:7b" := withNlp,
        "qwen2.5-coder:3b" := withNlp,
        "sqlcoder:7b" := sqlChart,
        "llama3.2:3b" := withNlp]
  }

  /** `PROMPT_TEMPLATES.get(model, {}).get(task, "{query}")`. */
  function Lookup(model: string, task: string): Template
  {
    var table := PromptTable();
    if model in table && task in table[model] then table[model][task] else QueryOnly
  }

  function TemplatePieces(model: string, task: string): seq<Piece>
  {
    Pieces(Lookup(model, task))
  }

  /** `load_template(model, task)`: the text of the template the table
      holds, or `{query}`; either way it has a `{query}` field. */
  function LoadTemplate(model: string, task: string): (t: string)
    ensures Contains(t, "{query}")
  {
    var ps := TemplatePieces(model, task);
    assert "query" in FieldNames(ps) by { TemplateFacts(model, task); }
    QueryFieldText(ps);
    Unparse(ps)
  }

  /** Pieces with a `query` field have `{query}` in their text. */
  lemma QueryFieldText(ps: seq<Piece>)
    requires "query" in FieldNames(ps)
    ensures Contains(Unparse(ps), "{query}")
  {
    FieldTextOccurs(ps, "query");
    assert "{" + "query" + "}" == "{query}";
  }

  predicate KnownModel(model: string)
  {
    model == "phi3:3.8b" || model == "qwen2.5-coder:7b" || model == "qwen2.5-coder:3b"
    || model == "sqlcoder:7b" || model == "llama3.2:3b"
  }

  predicate NlpModel(model: string)
  {
    model == "qwen2.5-coder:7b" || model == "qwen2.5-coder:3b" || model == "llama3.2:3b"
  }

  /** Which template `load_template` picks, case by case: SQL and chart
      templates for every known model, the nlp template for the three
      models that have one, and `{query}` for everything else. */
  lemma TemplateChoice(model: string, task: string)
    ensures Lookup(model, task)
      == if KnownModel(model) && task == "sql" then SqlTemplate
         else if KnownModel(model) && task == "chart" then ChartTemplate
         else if NlpModel(model) && task == "nlp" then NlpTemplate
         else QueryOnly
  {
  }

  /** A model or task missing from the table loads the template `{query}`,
      as for the model name `phi3-3.8b` (a hyphen where the table has a
      colon). */
  lemma LoadFallback(model: string, task: string)
    requires !KnownModel(model) || (task != "sql" && task != "chart" && (task != "nlp" || !NlpModel(model)))
    ensures LoadTemplate(model, task) == "{query}"
  {
    assert Lookup(model, task) == QueryOnly by {
      TemplateChoice(model, task);
    }
    FallbackText();
  }

  /** The fallback template is the text `{query}`. */
  lemma FallbackText()
    ensures Unparse(FallbackPieces()) == "{query}"
  {
    var ps := FallbackPieces();
    assert Unparse(ps[1..]) == "";
    assert PieceText(ps[0]) == "{query}";
  }

  /** The router's default model `gpt-oss:20b` is not in the table, and
      `phi3:3.8b` is but has no `nlp` template: by LoadFallback, both load
      `{query}` for these tasks. */
  lemma UnlistedExamples()
    ensures !KnownModel("gpt-oss:20b")
    ensures KnownModel("phi3:3.8b") && !NlpModel("phi3:3.8b")
  {
  }

  /** The template the test of `load_template` asks for loads `{query}`. */
  lemma LoadPhi3Hyphen()
    ensures LoadTemplate("phi3-3.8b", "nlp") == "{query}"
  {
    LoadFallback("phi3-3.8b", "nlp");
  }

  // ----- the templates of the table are well formed -----

  /** The fields of appended piece sequences are those of the parts. */
  lemma {:induction false} FieldNamesAppend(a: seq<Piece>, b: seq<Piece>)
    ensures FieldNames(a + b) == FieldNames(a) + FieldNames(b)
    decreases |a|
  {
    if a == [] {
      assert a + b == b;
    } else {
      assert (a + b)[1..] == a[1..] + b;
      FieldNamesAppend(a[1..], b);
    }
  }

  /** Appended piece sequences are valid exactly when both parts are. */
  lemma {:induction false} ValidPiecesAppend(a: seq<Piece>, b: seq<Piece>)
    ensures ValidPieces(a + b) <==> ValidPieces(a) && ValidPieces(b)
    decreases |a|
  {
    if a == [] {
      assert a + b == b;
    } else {
      assert (a + b)[1..] == a[1..] + b;
      ValidPiecesAppend(a[1..], b);
    }
  }

  /** Appended piece sequences have brace-free literals exactly when both parts do. */
  lemma {:induction false} LitsBraceFreeAppend(a: seq<Piece>, b: seq<Piece>)
    ensures LitsBraceFree(a + b) <==> LitsBraceFree(a) && LitsBraceFree(b)
    decreases |a|
  {
    if a == [] {
      assert a + b == b;
    } else {
      assert (a + b)[1..] == a[1..] + b;
      LitsBraceFreeAppend(a[1..], b);
    }
  }

  lemma LitFieldWellFormed(text: string, name: string)
    ensures FieldNames(LitField(text, name)) == {name}
    ensures ValidPieces(LitField(text, name)) <==> ValidName(name)
  {
    var ps := LitField(text, name);
    assert ps[1..] == [Field(name)];
    assert ps[1..][1..] == [];
    assert FieldNames(ps[1..]) == {name};
    assert ValidPieces(ps[1..]) <==> ValidName(name);
  }

  lemma LitFieldBraceFree(text: string, name: string)
    ensures LitsBraceFree(LitField(text, name)) <==> BraceFree(text)
  {
    var ps := LitField(text, name);
    assert ps[1..] == [Field(name)];
    assert ps[1..][1..] == [];
    assert LitsBraceFree(ps[1..]);
  }

  /** The fields `{columns}`, `{reference_info}`, `{history}` and `{query}`,
      each after its own text. */
  function HeaderShape(a: string, b: string, c: string, d: string): seq<Piece>
  {
    LitField(a, "columns") + LitField(b, "reference_info") + LitField(c, "history") + LitField(d, "query")
  }

  lemma HeaderShapeFields(a: string, b: string, c: string, d: string)
    ensures FieldNames(HeaderShape(a, b, c, d)) == {"columns", "reference_info", "history", "query"}
  {
    var p0, p1, p2, p3 := LitField(a, "columns"), LitField(b, "reference_info"), LitField(c, "history"), LitField(d, "query");
    LitFieldWellFormed(a, "columns");
    LitFieldWellFormed(b, "reference_info");
    LitFieldWellFormed(c, "history");
    LitFieldWellFormed(d, "query");
    FieldNamesAppend(p0, p1);
    FieldNamesAppend(p0 + p1, p2);
    FieldNamesAppend(p0 + p1 + p2, p3);
  }

  lemma HeaderShapeValid(a: string, b: string, c: string, d: string)
    ensures ValidPieces(HeaderShape(a, b, c, d))
  {
    var p0, p1, p2, p3 := LitField(a, "columns"), LitField(b, "reference_info"), LitField(c, "history"), LitField(d, "query");
    assert ValidPieces(p0) && ValidPieces(p1) && ValidPieces(p2) && ValidPieces(p3) by {
      LitFieldWellFormed(a, "columns");
      LitFieldWellFormed(b, "reference_info");
      LitFieldWellFormed(c, "history");
      LitFieldWellFormed(d, "query");
      FieldNamesValid();
    }
    ValidPiecesAppend(p0, p1);
    ValidPiecesAppend(p0 + p1, p2);
    ValidPiecesAppend(p0 + p1 + p2, p3);
  }

  /** The field names the templates use are valid `str.format` names. */
  lemma FieldNamesValid()
    ensures ValidName("columns") && ValidName("reference_info") && ValidName("history")
    ensures ValidName("query") && ValidName("results")
  {
    NameValid("columns");
    NameValid("reference_info");
    NameValid("history");
    NameValid("query");
    NameValid("results");
  }

  lemma NameValid(n: string)
    requires n in {"columns", "reference_info", "history", "query", "results"}
    ensures ValidName(n)
  {
    assert !IsBrace(n[0]) && !('0' <= n[0] <= '9');
  }

  lemma LitAlone(text: string)
    ensures FieldNames([Lit(text)]) == {} && ValidPieces([Lit(text)])
    ensures LitsBraceFree([Lit(text)]) <==> BraceFree(text)
  {
    assert [Lit(text)][1..] == [];
  }

  /** The header followed by one more text, as the SQL and chart templates are. */
  lemma HeaderThenText(e: string)
    ensures FieldNames(SqlHeader() + [Lit(e)]) == {"columns", "reference_info", "history", "query"}
    ensures ValidPieces(SqlHeader() + [Lit(e)])
  {
    HeaderShapeFields(TableLine(), ReferenceLine(), HistoryLine(), QuestionLine());
    HeaderShapeValid(TableLine(), ReferenceLine(), HistoryLine(), QuestionLine());
    LitAlone(e);
    FieldNamesAppend(SqlHeader(), [Lit(e)]);
    ValidPiecesAppend(SqlHeader(), [Lit(e)]);
  }

  lemma NlpShapeFields(a: string, b: string, c: string)
    ensures FieldNames(NlpShape(a, b, c)) == {"results", "query"}
    ensures ValidPieces(NlpShape(a, b, c))
  {
    var p0, p1, p2 := LitField(a, "results"), LitField(b, "query"), [Lit(c)];
    LitFieldWellFormed(a, "results");
    LitFieldWellFormed(b, "query");
    LitAlone(c);
    FieldNamesValid();
    FieldNamesAppend(p0, p1);
    FieldNamesAppend(p0 + p1, p2);
    ValidPiecesAppend(p0, p1);
    ValidPiecesAppend(p0 + p1, p2);
  }

  lemma NlpShapeBraceFree(a: string, b: string, c: string)
    requires BraceFree(a) && BraceFree(b) && BraceFree(c)
    ensures LitsBraceFree(NlpShape(a, b, c))
  {
    var p0, p1, p2 := LitField(a, "results"), LitField(b, "query"), [Lit(c)];
    LitFieldBraceFree(a, "results");
    LitFieldBraceFree(b, "query");
    LitAlone(c);
    LitsBraceFreeAppend(p0, p1);
    LitsBraceFreeAppend(p0 + p1, p2);
  }

  /** The fields each template of the table has. */
  function TemplateFields(tp: Template): set<string>
  {
    match tp
    case SqlTemplate => {"columns", "reference_info", "history", "query"}
    case ChartTemplate => {"columns", "reference_info", "history", "query"}
    case NlpTemplate => {"results", "query"}
    case QueryOnly => {"query"}
  }

  /** Every template of the table is valid for `str.format`, has exactly
      the fields listed for it, and has a `{query}` field. */
  lemma TemplateWellFormed(tp: Template)
    ensures ValidPieces(Pieces(tp))
    ensures FieldNames(Pieces(tp)) == TemplateFields(tp)
    ensures "query" in FieldNames(Pieces(tp))
  {
    match tp
    case SqlTemplate => SqlWellFormed();
    case ChartTemplate => ChartWellFormed();
    case NlpTemplate => NlpWellFormed();
    case QueryOnly => FallbackWellFormed();
  }

  lemma SqlWellFormed()
    ensures ValidPieces(SqlPieces())
    ensures FieldNames(SqlPieces()) == {"columns", "reference_info", "history", "query"}
  {
    HeaderThenText(SqlRequest());
  }

  lemma ChartWellFormed()
    ensures ValidPieces(ChartPieces())
    ensures FieldNames(ChartPieces()) == {"columns", "reference_info", "history", "query"}
  {
    HeaderThenText(ChartRequest());
  }

  lemma NlpWellFormed()
    ensures ValidPieces(NlpPieces())
    ensures FieldNames(NlpPieces()) == {"results", "query"}
  {
    NlpShapeFields(NlpOpening(), NlpQuestion(), NlpClosing());
  }

  lemma FallbackWellFormed()
    ensures ValidPieces(FallbackPieces())
    ensures FieldNames(FallbackPieces()) == {"query"}
  {
    var ps := FallbackPieces();
    assert ps[1..] == [];
    FieldNamesValid();
  }

  /** The literal texts of the nlp template contain no brace. */
  lemma NlpLitsBraceFree()
    ensures LitsBraceFree(NlpPieces())
  {
    OpeningChunks();
    QuestionChunk();
    ClosingChunks();
    BraceFreeAppend("Given the SQL", " query results:\n");
    var c := [" in a friendly", " and helpful way.", " Interpret the", " meaning of the",
              " results yourself", " and do not state", " that the meaning", " is unclear."];
    BraceFreeAppend(c[0], c[1]);
    BraceFreeAppend(c[0] + c[1], c[2]);
    BraceFreeAppend(c[0] + c[1] + c[2], c[3]);
    BraceFreeAppend(c[0] + c[1] + c[2] + c[3], c[4]);
    BraceFreeAppend(c[0] + c[1] + c[2] + c[3] + c[4], c[5]);
    BraceFreeAppend(c[0] + c[1] + c[2] + c[3] + c[4] + c[5], c[6]);
    BraceFreeAppend(c[0] + c[1] + c[2] + c[3] + c[4] + c[5] + c[6], c[7]);
    NlpShapeBraceFree(NlpOpening(), NlpQuestion(), NlpClosing());
  }

  lemma BraceFreeAppend(a: string, b: string)
    requires BraceFree(a) && BraceFree(b)
    ensures BraceFree(a + b)
  {
  }

  // Each short text is checked for braces in a lemma of its own: checking
  // a long literal means looking at each of its characters, and one proof
  // over the whole sentence asks the solver for more work than one proof
  // should take, while a proof per short text stays small.
  lemma OpeningChunks()
    ensures BraceFree("Given the SQL") && BraceFree(" query results:\n")
  {
    OpeningChunk1();
    OpeningChunk2();
  }

  lemma OpeningChunk1() ensures BraceFree("Given the SQL") {}
  lemma OpeningChunk2() ensures BraceFree(" query results:\n") {}
  lemma QuestionChunk() ensures BraceFree("\nAnswer the question: ") {}

  lemma ClosingChunks()
    ensures BraceFree(" in a friendly") && BraceFree(" and helpful way.") && BraceFree(" Interpret the")
    ensures BraceFree(" meaning of the") && BraceFree(" results yourself") && BraceFree(" and do not state")
    ensures BraceFree(" that the meaning") && BraceFree(" is unclear.")
  {
    ClosingChunk1();
    ClosingChunk2();
    ClosingChunk3();
    ClosingChunk4();
    ClosingChunk5();
    ClosingChunk6();
    ClosingChunk7();
    ClosingChunk8();
  }

  lemma ClosingChunk1() ensures BraceFree(" in a friendly") {}
  lemma ClosingChunk2() ensures BraceFree(" and helpful way.") {}
  lemma ClosingChunk3() ensures BraceFree(" Interpret the") {}
  lemma ClosingChunk4() ensures BraceFree(" meaning of the") {}
  lemma ClosingChunk5() ensures BraceFree(" results yourself") {}
  lemma ClosingChunk6() ensures BraceFree(" and do not state") {}
  lemma ClosingChunk7() ensures BraceFree(" that the meaning") {}
  lemma ClosingChunk8() ensures BraceFree(" is unclear.") {}

  // ----- build_prompt_with_history -----

  /** The history block: one `role: content` line per message, joined by
      newlines, or the empty text for an empty history; it is empty exactly
      when the history is. */
  function HistoryText(h: seq<Message>): (text: string)
    ensures text == "" <==> h == []
  {
    if h == [] then ""
    else
      var ls := Lines(h);
      assert Join("\n", ls) != "" by {
        if |ls| == 1 {
          assert Join("\n", ls) == Line(h[0]);
        } else {
          assert Join("\n", ls) == ls[0] + "\n" + Join("\n", ls[1..]);
        }
      }
      Join("\n", ls)
  }

  /** `results or ""`: an absent result text is the empty text. */
  function ResultsText(results: Option<string>): string
  {
    match results
    case None => ""
    case Some(r) => r
  }

  /** An extra keyword argument takes a name of a parameter of
      `build_prompt_with_history` or `fill_template`: the call is rejected. */
  predicate Reserved(extra: map<string, string>)
  {
    "model" in extra || "task" in extra || "query" in extra || "history" in extra
    || "results" in extra || "template" in extra
  }

  /** The keyword arguments `fill_template` passes on to the formatter
      besides `query`. */
  function PromptArgs(h: seq<Message>, results: Option<string>, extra: map<string, string>): map<string, string>
  {
    extra["history" := HistoryText(h)]["results" := ResultsText(results)]
  }

  /** The prompt built around a template text: the template filled with
      the query, the history block, the results and the extras; the history
      block is put in front, followed by a newline, when the template has no
      `{history}` text and the history is not empty. A reserved extra name
      is the duplicate keyword argument the call rejects. */
  function BuildPrompt(template: string, query: string, history: seq<Message>,
                       results: Option<string>, extra: map<string, string>): (r: Result<string, FormatError>)
    ensures r == Failure(DuplicateArgument) <==> Reserved(extra)
  {
    if Reserved(extra) then Failure(DuplicateArgument)
    else
      var historyText := HistoryText(history);
      var args := PromptArgs(history, results, extra);
      assert "template" !in args && "query" !in args;
      var base := FillTemplate(template, query, args);
      if Contains(template, "{history}") || historyText == "" then base
      else Prepend(historyText + "\n", base)
  }

  /** `build_prompt_with_history(model, task, query, history, results, **extra)`:
      the prompt built around the template `load_template` gives. */
  function BuildPromptWithHistory(model: string, task: string, query: string, history: seq<Message>,
                                  results: Option<string>, extra: map<string, string>): (r: Result<string, FormatError>)
    ensures r == Failure(DuplicateArgument) <==> Reserved(extra)
  {
    BuildPrompt(LoadTemplate(model, task), query, history, results, extra)
  }

  /** Every keyword argument the formatter sees. */
  function FieldArgs(query: string, h: seq<Message>, results: Option<string>, extra: map<string, string>): map<string, string>
  {
    PromptArgs(h, results, extra)["query" := query]
  }

  /** The formatter sees the query, the history block and the results
      text under their own names. */
  lemma FieldArgsValues(query: string, h: seq<Message>, results: Option<string>, extra: map<string, string>)
    ensures var args := FieldArgs(query, h, results, extra);
      "query" in args && "history" in args && "results" in args
      && args["query"] == query && args["history"] == HistoryText(h) && args["results"] == ResultsText(results)
  {
  }

  /** An absent result text and an empty one give the same prompt, for
      any template text. */
  lemma AbsentResults(template: string, query: string, history: seq<Message>, extra: map<string, string>)
    ensures BuildPrompt(template, query, history, None, extra)
      == BuildPrompt(template, query, history, Some(""), extra)
  {
    assert PromptArgs(history, None, extra) == PromptArgs(history, Some(""), extra);
  }

  /** The history block contains every message's line. */
  lemma HistoryTextLines(h: seq<Message>, k: nat)
    requires k < |h|
    ensures Contains(HistoryText(h), Line(h[k]))
  {
    JoinContains("\n", Lines(h), k);
  }

  /** Pieces whose text has a `{history}` exactly when a field is
      `history`: valid pieces with a `history` field or with texts free of
      braces. */
  predicate TemplateShape(ps: seq<Piece>)
  {
    ValidPieces(ps) && ("history" in FieldNames(ps) || LitsBraceFree(ps))
  }

  /** For pieces of that shape, the text has a `{history}` exactly when a
      field is `history`. */
  lemma HistoryFieldText(ps: seq<Piece>)
    requires TemplateShape(ps)
    ensures Contains(Unparse(ps), "{history}") <==> "history" in FieldNames(ps)
  {
    NameValid("history");
    assert "{" + "history" + "}" == "{history}";
    if "history" in FieldNames(ps) {
      FieldTextOccurs(ps, "history");
    } else {
      FieldOccurs(ps, "history");
    }
  }

  /** Every template of the table has that shape. */
  lemma TemplateShapes(tp: Template)
    ensures TemplateShape(Pieces(tp))
  {
    TemplateWellFormed(tp);
    if tp == NlpTemplate {
      NlpLitsBraceFree();
    } else if tp == QueryOnly {
      assert FallbackPieces()[1..] == [];
    }
  }

  // Prompts around the text of pieces of that shape.

  /** Without a reserved extra name, the prompt is the pieces rendered with
      the query, the history block, the results and the extras; the history
      block and a newline go in front exactly when no field is `history` and
      the history is not empty. */
  lemma PiecesPrompt(ps: seq<Piece>, query: string, history: seq<Message>,
                     results: Option<string>, extra: map<string, string>)
    requires TemplateShape(ps) && !Reserved(extra)
    ensures BuildPrompt(Unparse(ps), query, history, results, extra)
      == if "history" in FieldNames(ps) || history == []
         then Render(ps, FieldArgs(query, history, results, extra))
         else Prepend(HistoryText(history) + "\n", Render(ps, FieldArgs(query, history, results, extra)))
  {
    var args := PromptArgs(history, results, extra);
    assert "template" !in args && "query" !in args;
    FillUnparse(ps, query, args);
    HistoryFieldText(ps);
  }

  /** Without a reserved extra name, the prompt is built exactly when the
      pieces render, and fails with the rendering's error otherwise. */
  lemma PiecesPromptOutcome(ps: seq<Piece>, query: string, history: seq<Message>,
                            results: Option<string>, extra: map<string, string>)
    requires TemplateShape(ps) && !Reserved(extra)
    ensures BuildPrompt(Unparse(ps), query, history, results, extra).Success?
      <==> Render(ps, FieldArgs(query, history, results, extra)).Success?
    ensures BuildPrompt(Unparse(ps), query, history, results, extra).Failure? ==>
      BuildPrompt(Unparse(ps), query, history, results, extra).error
        == Render(ps, FieldArgs(query, history, results, extra)).error
  {
    PiecesPrompt(ps, query, history, results, extra);
  }

  /** The formatter's arguments cover a set of fields exactly when the
      extras cover those other than `query`, `history` and `results`. */
  lemma ArgsCover(fields: set<string>, query: string, history: seq<Message>,
                  results: Option<string>, extra: map<string, string>)
    ensures fields <= FieldArgs(query, history, results, extra).Keys
      <==> fields - {"query", "history", "results"} <= extra.Keys
  {
    assert FieldArgs(query, history, results, extra).Keys == extra.Keys + {"history", "results", "query"};
  }

  /** Without a reserved extra name, the prompt is built exactly when the
      extras supply every field other than `query`, `history` and
      `results`; otherwise the error names a field the extras lack. */
  lemma PiecesPromptSucceeds(ps: seq<Piece>, query: string, history: seq<Message>,
                             results: Option<string>, extra: map<string, string>)
    requires TemplateShape(ps) && !Reserved(extra)
    ensures BuildPrompt(Unparse(ps), query, history, results, extra).Success?
      <==> FieldNames(ps) - {"query", "history", "results"} <= extra.Keys
    ensures BuildPrompt(Unparse(ps), query, history, results, extra).Failure? ==>
      var e := BuildPrompt(Unparse(ps), query, history, results, extra).error;
      e.MissingKey? && e.name in FieldNames(ps) && e.name !in extra
  {
    var args := FieldArgs(query, history, results, extra);
    RenderOutcome(ps, args);
    ArgsCover(FieldNames(ps), query, history, results, extra);
    PiecesPromptOutcome(ps, query, history, results, extra);
  }

  /** Whatever the rendered pieces contain, the prompt contains. */
  lemma PiecesPromptHasBody(ps: seq<Piece>, query: string, history: seq<Message>,
                            results: Option<string>, extra: map<string, string>, sub: string)
    requires TemplateShape(ps) && !Reserved(extra)
    requires Render(ps, FieldArgs(query, history, results, extra)).Success?
    requires Contains(Render(ps, FieldArgs(query, history, results, extra)).value, sub)
    ensures BuildPrompt(Unparse(ps), query, history, results, extra).Success?
    ensures Contains(BuildPrompt(Unparse(ps), query, history, results, extra).value, sub)
  {
    var body := Render(ps, FieldArgs(query, history, results, extra)).value;
    var prompt := BuildPrompt(Unparse(ps), query, history, results, extra);
    PiecesPrompt(ps, query, history, results, extra);
    var front := if "history" in FieldNames(ps) || history == [] then "" else HistoryText(history) + "\n";
    assert prompt.value == front + body + "";
    ContainsWithin(front, body, "", sub);
  }

  /** The prompt contains the argument of every field of the pieces. */
  lemma PiecesPromptHasField(ps: seq<Piece>, query: string, history: seq<Message>,
                             results: Option<string>, extra: map<string, string>, n: string)
    requires TemplateShape(ps) && n in FieldNames(ps)
    requires n in FieldArgs(query, history, results, extra)
    requires BuildPrompt(Unparse(ps), query, history, results, extra).Success?
    ensures Contains(BuildPrompt(Unparse(ps), query, history, results, extra).value,
                     FieldArgs(query, history, results, extra)[n])
  {
    assert !Reserved(extra);
    var args := FieldArgs(query, history, results, extra);
    PiecesPromptOutcome(ps, query, history, results, extra);
    RenderContains(ps, args, n);
    PiecesPromptHasBody(ps, query, history, results, extra, args[n]);
  }

  /** Without a `history` field, the prompt starts with the history block. */
  lemma PiecesPromptHistoryInFront(ps: seq<Piece>, query: string, history: seq<Message>,
                                   results: Option<string>, extra: map<string, string>)
    requires TemplateShape(ps) && !Reserved(extra) && "history" !in FieldNames(ps)
    requires BuildPrompt(Unparse(ps), query, history, results, extra).Success?
    ensures Contains(BuildPrompt(Unparse(ps), query, history, results, extra).value, HistoryText(history))
  {
    var prompt := BuildPrompt(Unparse(ps), query, history, results, extra);
    var text := HistoryText(history);
    PiecesPromptOutcome(ps, query, history, results, extra);
    var body := Render(ps, FieldArgs(query, history, results, extra)).value;
    if history == [] {
      assert text == [];
      assert text == prompt.value[0..0];
      ContainsAt(prompt.value, text, 0);
    } else {
      assert prompt.value == "" + text + ("\n" + body) by {
        PiecesPrompt(ps, query, history, results, extra);
      }
      ContainsSelf(text);
      ContainsWithin("", text, "\n" + body, text);
    }
  }

  /** The prompt contains every line of the history, whether the pieces
      place the history block or it goes in front. */
  lemma PiecesPromptHasHistory(ps: seq<Piece>, query: string, history: seq<Message>,
                               results: Option<string>, extra: map<string, string>, k: nat)
    requires TemplateShape(ps) && k < |history|
    requires BuildPrompt(Unparse(ps), query, history, results, extra).Success?
    ensures Contains(BuildPrompt(Unparse(ps), query, history, results, extra).value, Line(history[k]))
  {
    assert !Reserved(extra);
    var prompt := BuildPrompt(Unparse(ps), query, history, results, extra);
    var text := HistoryText(history);
    if "history" in FieldNames(ps) {
      PiecesPromptHasField(ps, query, history, results, extra, "history");
      assert FieldArgs(query, history, results, extra)["history"] == text;
    } else {
      PiecesPromptHistoryInFront(ps, query, history, results, extra);
    }
    HistoryTextLines(history, k);
    ContainsTransitive(prompt.value, text, Line(history[k]));
  }

  // The prompts of the table's templates.

  /** The pieces loaded for a model and task have that shape and the
      fields listed for their template, `query` among them. */
  lemma TemplateFacts(model: string, task: string)
    ensures TemplateShape(TemplatePieces(model, task))
    ensures FieldNames(TemplatePieces(model, task)) == TemplateFields(Lookup(model, task))
    ensures "query" in FieldNames(TemplatePieces(model, task))
  {
    TemplateShapes(Lookup(model, task));
    TemplateWellFormed(Lookup(model, task));
  }

  /** Without a reserved extra name, the prompt is the template rendered
      with the query, the history block, the results and the extras; the
      history block and a newline go in front exactly when the template has
      no `history` field (the `nlp` template and the fallback) and the
      history is not empty. */
  lemma BuildPromptRenders(model: string, task: string, query: string, history: seq<Message>,
                           results: Option<string>, extra: map<string, string>)
    requires !Reserved(extra)
    ensures var body := Render(TemplatePieces(model, task), FieldArgs(query, history, results, extra));
      BuildPromptWithHistory(model, task, query, history, results, extra)
        == if "history" in TemplateFields(Lookup(model, task)) || history == [] then body
           else Prepend(HistoryText(history) + "\n", body)
  {
    TemplateFacts(model, task);
    PiecesPrompt(TemplatePieces(model, task), query, history, results, extra);
  }

  /** Without a reserved extra name, the prompt is built exactly when the
      extras supply every field of the template other than `query`,
      `history` and `results` (`columns` and `reference_info` for the SQL
      and chart templates, nothing for the others); otherwise the error
      names a field the extras lack. */
  lemma BuildPromptSucceeds(model: string, task: string, query: string, history: seq<Message>,
                            results: Option<string>, extra: map<string, string>)
    requires !Reserved(extra)
    ensures BuildPromptWithHistory(model, task, query, history, results, extra).Success?
      <==> TemplateFields(Lookup(model, task)) - {"query", "history", "results"} <= extra.Keys
    ensures BuildPromptWithHistory(model, task, query, history, results, extra).Failure? ==>
      var e := BuildPromptWithHistory(model, task, query, history, results, extra).error;
      e.MissingKey? && e.name in TemplateFields(Lookup(model, task)) && e.name !in extra
  {
    TemplateFacts(model, task);
    PiecesPromptSucceeds(TemplatePieces(model, task), query, history, results, extra);
  }

  /** A built prompt contains the query. */
  lemma BuildPromptHasQuery(model: string, task: string, query: string, history: seq<Message>,
                            results: Option<string>, extra: map<string, string>)
    requires BuildPromptWithHistory(model, task, query, history, results, extra).Success?
    ensures Contains(BuildPromptWithHistory(model, task, query, history, results, extra).value, query)
  {
    var ps := TemplatePieces(model, task);
    assert TemplateShape(ps) && "query" in FieldNames(ps) by { TemplateFacts(model, task); }
    PiecesPromptHasField(ps, query, history, results, extra, "query");
  }

  /** A built prompt contains the results when the template has a
      `results` field. */
  lemma BuildPromptHasResults(model: string, task: string, query: string, history: seq<Message>,
                              results: Option<string>, extra: map<string, string>)
    requires BuildPromptWithHistory(model, task, query, history, results, extra).Success?
    requires "results" in TemplateFields(Lookup(model, task))
    ensures Contains(BuildPromptWithHistory(model, task, query, history, results, extra).value, ResultsText(results))
  {
    var ps := TemplatePieces(model, task);
    assert TemplateShape(ps) && "results" in FieldNames(ps) by { TemplateFacts(model, task); }
    FieldArgsValues(query, history, results, extra);
    PiecesPromptHasField(ps, query, history, results, extra, "results");
  }

  /** A built prompt contains every line of the history. */
  lemma BuildPromptHasHistory(model: string, task: string, query: string, history: seq<Message>,
                              results: Option<string>, extra: map<string, string>, k: nat)
    requires BuildPromptWithHistory(model, task, query, history, results, extra).Success?
    requires k < |history|
    ensures Contains(BuildPromptWithHistory(model, task, query, history, results, extra).value, Line(history[k]))
  {
    var ps := TemplatePieces(model, task);
    assert TemplateShape(ps) by { TemplateFacts(model, task); }
    PiecesPromptHasHistory(ps, query, history, results, extra, k);
  }

  /** A built prompt contains the query, every line of the history, and the
      results when the template has a `results` field (the `nlp` template). */
  lemma BuildPromptContents(model: string, task: string, query: string, history: seq<Message>,
                            results: Option<string>, extra: map<string, string>)
    requires BuildPromptWithHistory(model, task, query, history, results, extra).Success?
    ensures Contains(BuildPromptWithHistory(model, task, query, history, results, extra).value, query)
    ensures "results" in TemplateFields(Lookup(model, task)) ==>
      Contains(BuildPromptWithHistory(model, task, query, history, results, extra).value, ResultsText(results))
    ensures forall k | 0 <= k < |history| ::
      Contains(BuildPromptWithHistory(model, task, query, history, results, extra).value, Line(history[k]))
  {
    BuildPromptHasQuery(model, task, query, history, results, extra);
    if "results" in TemplateFields(Lookup(model, task)) {
      BuildPromptHasResults(model, task, query, history, results, extra);
    }
    forall k | 0 <= k < |history|
      ensures Contains(BuildPromptWithHistory(model, task, query, history, results, extra).value, Line(history[k]))
    {
      BuildPromptHasHistory(model, task, query, history, results, extra, k);
    }
  }

  /** `qwen2.5-coder:3b` has a template for `nlp` prompts. */
  lemma QwenCoderNlp()
    ensures Lookup("qwen2.5-coder:3b", "nlp") == NlpTemplate
  {
  }

  /** Two exchanges recorded for one user and put, with a results text,
      into an `nlp` prompt for a model that has an `nlp` template (such as
      `qwen2.5-coder:3b`, by QwenCoderNlp): the prompt is built and holds
      the user and assistant lines of both exchanges, the new question and
      the results. */
  method PromptWithRecordedHistory(model: string, userId: string, q1: string, a1: string, q2: string, a2: string,
                                   query: string, results: string, t: Timestamp)
    returns (prompt: Result<string, FormatError>)
    requires Lookup(model, "nlp") == NlpTemplate
    ensures prompt.Success?
    ensures Contains(prompt.value, USER_ROLE + ": " + q1) && Contains(prompt.value, ASSISTANT_ROLE + ": " + a1)
    ensures Contains(prompt.value, USER_ROLE + ": " + q2) && Contains(prompt.value, ASSISTANT_ROLE + ": " + a2)
    ensures Contains(prompt.value, query) && Contains(prompt.value, results)
  {
    var ctx := new ConversationContext();
    ctx.Record(userId, q1, a1, t, t);
    ctx.Record(userId, q2, a2, t, t);
    var history := ctx.GetHistory(userId);
    assert |history| == 4
      && history[0].role == USER_ROLE && history[0].content == q1
      && history[1].role == ASSISTANT_ROLE && history[1].content == a1
      && history[2].role == USER_ROLE && history[2].content == q2
      && history[3].role == ASSISTANT_ROLE && history[3].content == a2 by {
      assert history == [Message(USER_ROLE, q1, t), Message(ASSISTANT_ROLE, a1, t),
                         Message(USER_ROLE, q2, t), Message(ASSISTANT_ROLE, a2, t)];
    }
    TwoExchangePrompt(model, history, q1, a1, q2, a2, query, results);
    prompt := BuildPromptWithHistory(model, "nlp", query, history, Some(results), map[]);
  }

  /** The prompt of PromptWithRecordedHistory, for the history the two
      records leave. */
  lemma TwoExchangePrompt(model: string, history: seq<Message>, q1: string, a1: string, q2: string, a2: string,
                          query: string, results: string)
    requires Lookup(model, "nlp") == NlpTemplate
    requires |history| == 4
    requires history[0].role == USER_ROLE && history[0].content == q1
    requires history[1].role == ASSISTANT_ROLE && history[1].content == a1
    requires history[2].role == USER_ROLE && history[2].content == q2
    requires history[3].role == ASSISTANT_ROLE && history[3].content == a2
    ensures var prompt := BuildPromptWithHistory(model, "nlp", query, history, Some(results), map[]);
      prompt.Success?
      && Contains(prompt.value, USER_ROLE + ": " + q1) && Contains(prompt.value, ASSISTANT_ROLE + ": " + a1)
      && Contains(prompt.value, USER_ROLE + ": " + q2) && Contains(prompt.value, ASSISTANT_ROLE + ": " + a2)
      && Contains(prompt.value, query) && Contains(prompt.value, results)
  {
    NlpPrompt(model, query, history, results);
    assert Line(history[0]) == USER_ROLE + ": " + q1 && Line(history[1]) == ASSISTANT_ROLE + ": " + a1;
    assert Line(history[2]) == USER_ROLE + ": " + q2 && Line(history[3]) == ASSISTANT_ROLE + ": " + a2;
  }

  /** An `nlp` prompt without extras is always built, and contains the
      query, the results and every history line. */
  lemma NlpPrompt(model: string, query: string, history: seq<Message>, results: string)
    requires Lookup(model, "nlp") == NlpTemplate
    ensures BuildPromptWithHistory(model, "nlp", query, history, Some(results), map[]).Success?
    ensures var prompt := BuildPromptWithHistory(model, "nlp", query, history, Some(results), map[]).value;
      Contains(prompt, query) && Contains(prompt, results)
      && forall k | 0 <= k < |history| :: Contains(prompt, Line(history[k]))
  {
    var extra: map<string, string> := map[];
    assert !Reserved(extra);
    assert TemplateFields(NlpTemplate) - {"query", "history", "results"} == {};
    BuildPromptSucceeds(model, "nlp", query, history, Some(results), extra);
    BuildPromptContents(model, "nlp", query, history, Some(results), extra);
    assert ResultsText(Some(results)) == results;
  }
}
