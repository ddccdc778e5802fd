/**
 * What one more token of each kind does, from any state the parse has
 * reached, and what `arg` then answers.
 */
module Scenarios {
  import opened Base
  import opened Tokens
  import opened Numbers
  import opened Values
  import opened Parser
  import opened Accessor

  /** The token `key=value`. */
  function Pair(k: string, v: string): CppString
    requires |k| + 1 + |v| < NPOS
  {
    k + "=" + v
  }

  /** One more token is one more turn of the loop. */
  lemma ParseSnoc(argv: seq<CppString>, t: CppString, types: map<string, string>, fp: FloatParsers)
    requires |argv| >= 1
    ensures ParseArguments(argv + [t], types, fp) == Step(ParseArguments(argv, types, fp), t, types, fp)
  {
    assert (argv + [t])[0] == argv[0];
    assert (argv + [t])[1..] == argv[1..] + [t];
    assert (argv[1..] + [t])[..|argv[1..]|] == argv[1..];
  }

  /** A token with an `=` is never a help flag, and it is cut at that `=`. */
  lemma PairParts(k: string, v: string)
    requires '=' !in k
    requires |k| + 1 + |v| < NPOS
    ensures !IsHelp(Pair(k, v))
    ensures KeyOf(Pair(k, v)) == k && ValueOf(Pair(k, v)) == v
  {
    SplitJoin(k, v);
    assert Pair(k, v)[|k|] == '=';
  }

  /** A help flag adds or changes no entry, logs nothing, and runs `on_help` once. */
  lemma HelpFlag(argv: seq<CppString>, t: CppString, types: map<string, string>, fp: FloatParsers)
    requires |argv| >= 1
    requires IsHelp(t)
    ensures var before := ParseArguments(argv, types, fp);
            ParseArguments(argv + [t], types, fp) == before.(helpCalls := before.helpCalls + 1)
  {
    ParseSnoc(argv, t, types, fp);
  }

  /**
   * The token `k=v`, whatever state the parse is in: the conversion of `v`
   * for `k` alone decides whether the entry is written (converted, or raw
   * text with a warning when out of range) or skipped with a warning.
   */
  lemma PairStep(st: Parsed, k: string, v: string, types: map<string, string>, fp: FloatParsers)
    requires '=' !in k && |k| + 1 + |v| < NPOS
    ensures Step(st, Pair(k, v), types, fp) ==
              Apply(st, match Convert(types, k, v, fp)
                        case Converted(x) => Store(k, x, [])
                        case OutOfRange => Store(k, VString(v), [UnknownOrBadType(k, v)])
                        case InvalidArgument => Skip(WrongType(k, types[k], v)))
  {
    PairParts(k, v);
  }

  /**
   * A key nobody declared is still stored, as its value text verbatim
   * (`=` signs after the first included), and one warning names it.
   */
  lemma UndeclaredKey(st: Parsed, k: string, v: string, types: map<string, string>, fp: FloatParsers, d: string)
    requires '=' !in k && |k| + 1 + |v| < NPOS
    requires k !in types
    ensures var after := Step(st, Pair(k, v), types, fp);
            && Arg(after.args, k, VString(d)) == Ok(VString(v))
            && after.warnings == st.warnings + [UnknownOrBadType(k, v)]
  {
    var after := Apply(st, Store(k, VString(v), [UnknownOrBadType(k, v)]));
    assert k in after.args && after.args[k] == VString(v);
    assert Arg(after.args, k, VString(d)) == Ok(VString(v));
    assert Step(st, Pair(k, v), types, fp) == after by {
      PairStep(st, k, v, types, fp);
      assert Convert(types, k, v, fp) == OutOfRange;
    }
  }

  /**
   * A key declared "string", or with a type name not recognised, gets the
   * value text verbatim, and nothing is logged.
   */
  lemma DeclaredString(st: Parsed, k: string, v: string, types: map<string, string>, fp: FloatParsers, d: string)
    requires '=' !in k && |k| + 1 + |v| < NPOS
    requires k in types && TagOf(types[k]) == TagString
    ensures var after := Step(st, Pair(k, v), types, fp);
            && Arg(after.args, k, VString(d)) == Ok(VString(v))
            && after.warnings == st.warnings
  {
    var after := Apply(st, Store(k, VString(v), []));
    assert k in after.args && after.args[k] == VString(v);
    assert Arg(after.args, k, VString(d)) == Ok(VString(v));
    assert Step(st, Pair(k, v), types, fp) == after by {
      PairStep(st, k, v, types, fp);
      assert Convert(types, k, v, fp) == Converted(VString(v));
    }
  }

  /** A declared `int` key given `to_string(n)` stores `n` with no warning, whatever came before. */
  lemma DeclaredInt(st: Parsed, k: string, n: Int32, types: map<string, string>, fp: FloatParsers, d: Int32)
    requires '=' !in k && |k| + 1 + |IntToDecimal(n)| < NPOS
    requires k in types && TagOf(types[k]) == TagInt
    ensures var after := Step(st, Pair(k, IntToDecimal(n)), types, fp);
            && Lookup(after.args, k) == Some(VInt(n))
            && Arg(after.args, k, VInt(d)) == Ok(VInt(n))
            && after.warnings == st.warnings
  {
    var after := Apply(st, Store(k, VInt(n), []));
    assert k in after.args && after.args[k] == VInt(n);
    assert Lookup(after.args, k) == Some(VInt(n));
    assert Arg(after.args, k, VInt(d)) == Ok(VInt(n));
    assert Step(st, Pair(k, IntToDecimal(n)), types, fp) == after by {
      StoIRoundTrip(n, []);
      assert IntToDecimal(n) + [] == IntToDecimal(n);
      PairStep(st, k, IntToDecimal(n), types, fp);
      assert Convert(types, k, IntToDecimal(n), fp) == Converted(VInt(n));
    }
  }

  /**
   * The whole command line `prog k=to_string(n)` with `k` declared `int`:
   * `arg` answers `n` and nothing is logged.
   */
  lemma IntLine(argv: seq<CppString>, k: string, n: Int32, types: map<string, string>, fp: FloatParsers, d: Int32)
    requires '=' !in k && |k| + 1 + |IntToDecimal(n)| < NPOS
    requires k in types && TagOf(types[k]) == TagInt
    requires |argv| == 2 && argv[1] == Pair(k, IntToDecimal(n))
    ensures var parsed := ParseArguments(argv, types, fp);
            && Arg(parsed.args, k, VInt(d)) == Ok(VInt(n))
            && parsed.warnings == []
  {
    var st := Initial(argv[0]);
    OneToken(argv, types, fp);
    DeclaredInt(st, k, n, types, fp, d);
  }

  /**
   * A value the declared type cannot read at all (no digits, or empty)
   * writes nothing: the entry stays as it was, present or absent, so `arg`
   * answers as before, and the log gains the one warning naming the
   * declared type.
   */
  lemma Unconvertible(st: Parsed, k: string, v: string, types: map<string, string>, fp: FloatParsers, default: Value)
    requires '=' !in k && |k| + 1 + |v| < NPOS
    requires Convert(types, k, v, fp).InvalidArgument?
    ensures var after := Step(st, Pair(k, v), types, fp);
            && after.args == st.args
            && Arg(after.args, k, default) == Arg(st.args, k, default)
            && k in types
            && after.warnings == st.warnings + [WrongType(k, types[k], v)]
  {
    PairStep(st, k, v, types, fp);
  }

  /**
   * On a whole command line: appending a token whose value does not convert
   * leaves every answer of `arg` for its key as it was.
   */
  lemma FailedTokenInvisible(pre: seq<CppString>, argv: seq<CppString>, k: string, v: string,
                             types: map<string, string>, fp: FloatParsers, default: Value)
    requires |pre| >= 1 && '=' !in k && |k| + 1 + |v| < NPOS
    requires argv == pre + [Pair(k, v)]
    requires Convert(types, k, v, fp).InvalidArgument?
    ensures Arg(ParseArguments(argv, types, fp).args, k, default) == Arg(ParseArguments(pre, types, fp).args, k, default)
  {
    ParseSnoc(pre, Pair(k, v), types, fp);
    Unconvertible(ParseArguments(pre, types, fp), k, v, types, fp, default);
  }

  /** With a declared `bool`, exactly "true", "1" and "yes" are true; nothing is logged. */
  lemma DeclaredBool(st: Parsed, k: string, v: string, types: map<string, string>, fp: FloatParsers, d: bool)
    requires '=' !in k && |k| + 1 + |v| < NPOS
    requires k in types && TagOf(types[k]) == TagBool
    ensures var after := Step(st, Pair(k, v), types, fp);
            && Lookup(after.args, k) == Some(VBool(v == "true" || v == "1" || v == "yes"))
            && Arg(after.args, k, VBool(d)) == Ok(VBool(v == "true" || v == "1" || v == "yes"))
            && after.warnings == st.warnings
  {
    var b := v in TRUE_LITERALS;
    var after := Apply(st, Store(k, VBool(b), []));
    assert b == (v == "true" || v == "1" || v == "yes");
    assert k in after.args && after.args[k] == VBool(b);
    assert Lookup(after.args, k) == Some(VBool(b));
    assert Arg(after.args, k, VBool(d)) == Ok(VBool(b));
    assert Step(st, Pair(k, v), types, fp) == after by {
      PairStep(st, k, v, types, fp);
      assert Convert(types, k, v, fp) == Converted(VBool(b));
    }
  }

  /**
   * The whole command line `prog k=v` with `k` declared `bool`: `arg`
   * answers whether `v` is one of the three true literals, and nothing is
   * logged.
   */
  lemma BoolLine(argv: seq<CppString>, k: string, v: string, types: map<string, string>, fp: FloatParsers, d: bool)
    requires '=' !in k && |k| + 1 + |v| < NPOS
    requires k in types && TagOf(types[k]) == TagBool
    requires |argv| == 2 && argv[1] == Pair(k, v)
    ensures var parsed := ParseArguments(argv, types, fp);
            && Arg(parsed.args, k, VBool(d)) == Ok(VBool(v == "true" || v == "1" || v == "yes"))
            && parsed.warnings == []
  {
    var st := Initial(argv[0]);
    OneToken(argv, types, fp);
    DeclaredBool(st, k, v, types, fp, d);
  }

  /**
   * A number too large for a declared `int` (for instance
   * `to_string(2147483648)`) goes to the `out_of_range` handler: it is
   * stored as text with a warning, so asking for it as an `int` then faults
   * instead of giving the default.
   */
  lemma IntOutOfRange(st: Parsed, k: string, v: string, types: map<string, string>, fp: FloatParsers, d: Int32)
    requires '=' !in k && |k| + 1 + |v| < NPOS
    requires k in types && TagOf(types[k]) == TagInt
    requires StoI(v) == OutOfRange
    ensures var after := Step(st, Pair(k, v), types, fp);
            && Lookup(after.args, k) == Some(VString(v))
            && Arg(after.args, k, VInt(d)) == Err(BadAnyCast(KString, KInt))
            && after.warnings == st.warnings + [UnknownOrBadType(k, v)]
  {
    var after := Apply(st, Store(k, VString(v), [UnknownOrBadType(k, v)]));
    assert k in after.args && after.args[k] == VString(v);
    assert Lookup(after.args, k) == Some(VString(v));
    assert Arg(after.args, k, VInt(d)) == Err(BadAnyCast(KString, KInt));
    assert Step(st, Pair(k, v), types, fp) == after by {
      PairStep(st, k, v, types, fp);
      assert Convert(types, k, v, fp) == OutOfRange;
    }
  }

  /**
   * A declared `unsigned` keeps only the low 32 bits of what `stoul` reads
   * (so `to_string(4294967296)` stores 0), and logs nothing.
   */
  lemma UnsignedWraps(st: Parsed, k: string, v: string, n: UInt64, types: map<string, string>, fp: FloatParsers)
    requires '=' !in k && |k| + 1 + |v| < NPOS
    requires k in types && TagOf(types[k]) == TagUnsigned
    requires StoUL(v) == Converted(n)
    ensures var after := Step(st, Pair(k, v), types, fp);
            && Lookup(after.args, k) == Some(VUnsigned(LowBits32(n)))
            && after.warnings == st.warnings
  {
    var after := Apply(st, Store(k, VUnsigned(LowBits32(n)), []));
    assert Step(st, Pair(k, v), types, fp) == after by {
      PairStep(st, k, v, types, fp);
      assert Convert(types, k, v, fp) == Converted(VUnsigned(LowBits32(n)));
    }
  }

  /** The program name is a `char*`: asking for it with a `std::string` default faults. */
  lemma ProgramNameIsCharPtr(argv: seq<CppString>, types: map<string, string>, fp: FloatParsers, d: string)
    requires |argv| >= 1
    requires forall i :: 1 <= i < |argv| && !IsHelp(argv[i]) ==> KeyOf(argv[i]) != ""
    ensures Arg(ParseArguments(argv, types, fp).args, "", VString(d)) == Err(BadAnyCast(KCharPtr, KString))
    ensures Arg(ParseArguments(argv, types, fp).args, "", VCharPtr(d)) == Ok(VCharPtr(argv[0]))
  {
    ProgramNameKept(argv, types, fp);
  }
}
