/**
 * `parse_arguments`: a left fold over the tokens after the program name.
 * Each token is a help flag, or is cut at its first `=` into a key and a
 * value, and the value is converted to the type declared for the key. The
 * two exception handlers decide what a failed conversion does: an
 * `out_of_range` (an undeclared key, or a number too large) stores the raw
 * text and warns; an `invalid_argument` (no digits) warns and writes nothing.
 * The `on_help` callback is modelled by counting its calls and the lines
 * written to `std::cerr` by a log of warnings.
 */
module Parser {
  import opened Base
  import opened Tokens
  import opened Numbers
  import opened Values

  /** One line written to `std::cerr`. */
  datatype Warning =
    /** From the `out_of_range` handler: "unknown argument or bad type". */
    | UnknownOrBadType(key: string, value: string)
      /** From the `invalid_argument` handler: the value does not have the declared type. */
    | WrongType(key: string, typeName: string, value: string)

  /**
   * `std::stof` and `std::stod`, which this model does not define: they are
   * supplied by the caller and may convert, or throw either exception.
   */
  datatype FloatParsers = FloatParsers(stof: string -> Conversion<Float32>, stod: string -> Conversion<Float64>)

  /** The returned map, the warnings logged so far, and how often `on_help` ran. */
  datatype Parsed = Parsed(args: map<string, Value>, warnings: seq<Warning>, helpCalls: nat)

  /** The two spellings that run the help callback instead of being parsed. */
  predicate IsHelp(t: string)
  {
    t == "--help" || t == "-h"
  }

  /** The only values that the `bool` type reads as `true`; every other text is `false`. */
  const TRUE_LITERALS: set<string> := {"true", "1", "yes"}

  /** The exception a failed conversion of any type throws, as a failed conversion to a `Value`. */
  function Rethrow<T>(c: Conversion<T>): (r: Conversion<Value>)
    requires !c.Converted?
    ensures r.InvalidArgument? <==> c.InvalidArgument?
    ensures !r.Converted?
  {
    if c.InvalidArgument? then InvalidArgument else OutOfRange
  }

  /**
   * The body of the `try` block: the conversion the declared type name
   * selects. An undeclared key makes `value_types.at(k)` throw
   * `out_of_range`, as a number too large for its type does.
   */
  function Convert(types: map<string, string>, k: string, v: string, fp: FloatParsers): (r: Conversion<Value>)
    ensures k !in types ==> r == OutOfRange
    ensures r.Converted? ==> k in types && KindOf(r.value) == TagKind(TagOf(types[k]))
    ensures r.InvalidArgument? ==> k in types && TagOf(types[k]) !in {TagBool, TagString}
  {
    if k !in types then OutOfRange
    else
      match TagOf(types[k])
      case TagInt => var c := StoI(v); if c.Converted? then Converted(VInt(c.value)) else Rethrow(c)
      case TagUnsigned => var c := StoU(v); if c.Converted? then Converted(VUnsigned(c.value)) else Rethrow(c)
      case TagULong => var c := StoUL(v); if c.Converted? then Converted(VULong(c.value)) else Rethrow(c)
      case TagFloat => var c := fp.stof(v); if c.Converted? then Converted(VFloat(c.value)) else Rethrow(c)
      case TagDouble => var c := fp.stod(v); if c.Converted? then Converted(VDouble(c.value)) else Rethrow(c)
      case TagBool => Converted(VBool(v in TRUE_LITERALS))
      case TagString => Converted(VString(v))
  }

  /**
   * The conversion each declared type name selects, outcome for outcome: a
   * numeric type converts, or throws, exactly as its `std::sto*` call does
   * (`stof` and `stod` being the supplied parsers), `bool` is true for
   * exactly the three literals, and any other name keeps the text.
   */
  lemma ConvertByType(types: map<string, string>, k: string, v: string, fp: FloatParsers)
    ensures k in types && TagOf(types[k]) == TagInt ==>
              Convert(types, k, v, fp) == match StoI(v)
                                          case Converted(n) => Converted(VInt(n))
                                          case OutOfRange => OutOfRange
                                          case InvalidArgument => InvalidArgument
    ensures k in types && TagOf(types[k]) == TagUnsigned ==>
              Convert(types, k, v, fp) == match StoU(v)
                                          case Converted(n) => Converted(VUnsigned(n))
                                          case OutOfRange => OutOfRange
                                          case InvalidArgument => InvalidArgument
    ensures k in types && TagOf(types[k]) == TagULong ==>
              Convert(types, k, v, fp) == match StoUL(v)
                                          case Converted(n) => Converted(VULong(n))
                                          case OutOfRange => OutOfRange
                                          case InvalidArgument => InvalidArgument
    ensures k in types && TagOf(types[k]) == TagFloat ==>
              Convert(types, k, v, fp) == match fp.stof(v)
                                          case Converted(x) => Converted(VFloat(x))
                                          case OutOfRange => OutOfRange
                                          case InvalidArgument => InvalidArgument
    ensures k in types && TagOf(types[k]) == TagDouble ==>
              Convert(types, k, v, fp) == match fp.stod(v)
                                          case Converted(x) => Converted(VDouble(x))
                                          case OutOfRange => OutOfRange
                                          case InvalidArgument => InvalidArgument
    ensures k in types && TagOf(types[k]) == TagBool ==> Convert(types, k, v, fp) == Converted(VBool(v in TRUE_LITERALS))
    ensures k in types && TagOf(types[k]) == TagString ==> Convert(types, k, v, fp) == Converted(VString(v))
  {
  }

  /** What one token does to the result. */
  datatype Effect =
    | CallHelp
    | Store(key: string, value: Value, logged: seq<Warning>)
    | Skip(warning: Warning)

  /**
   * The effect of one token under the error policy of the two handlers.
   */
  function Classify(t: CppString, types: map<string, string>, fp: FloatParsers): (e: Effect)
    ensures e.CallHelp? <==> IsHelp(t)
    ensures e.Store? ==> e.key == KeyOf(t) && |e.logged| <= 1
  {
    if IsHelp(t) then CallHelp
    else
      var (k, v) := SplitToken(t);
      match Convert(types, k, v, fp)
      case Converted(x) => Store(k, x, [])
      case OutOfRange => Store(k, VString(v), [UnknownOrBadType(k, v)])
      case InvalidArgument => Skip(WrongType(k, types[k], v))
  }

  /**
   * The effect of a token by the type declared for its key: a help flag
   * calls back; an undeclared key is stored as text with a warning; `bool`
   * and `string` always store; an `int` stores its value, or its text with a
   * warning when too large, or nothing with a warning when it has no digits.
   */
  lemma ClassifyByType(t: CppString, types: map<string, string>, fp: FloatParsers)
    ensures var e := Classify(t, types, fp);
            !IsHelp(t) && KeyOf(t) !in types ==>
              e == Store(KeyOf(t), VString(ValueOf(t)), [UnknownOrBadType(KeyOf(t), ValueOf(t))])
    ensures var e := Classify(t, types, fp);
            !IsHelp(t) && KeyOf(t) in types && TagOf(types[KeyOf(t)]) == TagBool ==>
              e == Store(KeyOf(t), VBool(ValueOf(t) in TRUE_LITERALS), [])
    ensures var e := Classify(t, types, fp);
            !IsHelp(t) && KeyOf(t) in types && TagOf(types[KeyOf(t)]) == TagString ==>
              e == Store(KeyOf(t), VString(ValueOf(t)), [])
    ensures var e := Classify(t, types, fp);
            !IsHelp(t) && KeyOf(t) in types && TagOf(types[KeyOf(t)]) == TagInt ==>
              e == match StoI(ValueOf(t))
                   case Converted(n) => Store(KeyOf(t), VInt(n), [])
                   case OutOfRange => Store(KeyOf(t), VString(ValueOf(t)), [UnknownOrBadType(KeyOf(t), ValueOf(t))])
                   case InvalidArgument => Skip(WrongType(KeyOf(t), types[KeyOf(t)], ValueOf(t)))
  {
    if !IsHelp(t) {
      var k, v := KeyOf(t), ValueOf(t);
      assert Classify(t, types, fp) == match Convert(types, k, v, fp)
                                       case Converted(x) => Store(k, x, [])
                                       case OutOfRange => Store(k, VString(v), [UnknownOrBadType(k, v)])
                                       case InvalidArgument => Skip(WrongType(k, types[k], v));
      if k in types && TagOf(types[k]) == TagInt {
        assert Convert(types, k, v, fp) == match StoI(v)
                                           case Converted(n) => Converted(VInt(n))
                                           case OutOfRange => OutOfRange
                                           case InvalidArgument => InvalidArgument;
      }
    }
  }

  /**
   * The effect of a token by the outcome of its conversion, for every type:
   * it is skipped exactly when the conversion finds no digits to read, a
   * converted value is stored as is with no warning, and an `out_of_range`
   * stores the text with a warning.
   */
  lemma ClassifyByOutcome(t: CppString, types: map<string, string>, fp: FloatParsers)
    ensures var e := Classify(t, types, fp);
            !IsHelp(t) ==> (e.Skip? <==> Convert(types, KeyOf(t), ValueOf(t), fp).InvalidArgument?)
    ensures var e := Classify(t, types, fp);
            !IsHelp(t) && Convert(types, KeyOf(t), ValueOf(t), fp).Converted? ==>
              e == Store(KeyOf(t), Convert(types, KeyOf(t), ValueOf(t), fp).value, [])
    ensures var e := Classify(t, types, fp);
            !IsHelp(t) && Convert(types, KeyOf(t), ValueOf(t), fp).OutOfRange? ==>
              e == Store(KeyOf(t), VString(ValueOf(t)), [UnknownOrBadType(KeyOf(t), ValueOf(t))])
  {
    if !IsHelp(t) {
      var k, v := KeyOf(t), ValueOf(t);
      assert Classify(t, types, fp) == match Convert(types, k, v, fp)
                                       case Converted(x) => Store(k, x, [])
                                       case OutOfRange => Store(k, VString(v), [UnknownOrBadType(k, v)])
                                       case InvalidArgument => Skip(WrongType(k, types[k], v));
    }
  }

  /**
   * What any token can do: a stored value is text or has the declared
   * type's kind, and a skipped token logs the type its key was declared with.
   */
  lemma ClassifyShapes(t: CppString, types: map<string, string>, fp: FloatParsers)
    ensures var e := Classify(t, types, fp);
            e.Store? ==> KindOf(e.value) == KString || (KeyOf(t) in types && KindOf(e.value) == TagKind(TagOf(types[KeyOf(t)])))
    ensures var e := Classify(t, types, fp);
            e.Skip? ==> KeyOf(t) in types && e.warning == WrongType(KeyOf(t), types[KeyOf(t)], ValueOf(t))
  {
    if !IsHelp(t) {
      ClassifyByOutcome(t, types, fp);
      var k, v := KeyOf(t), ValueOf(t);
      match Convert(types, k, v, fp)
      case Converted(x) =>
        assert KindOf(x) == TagKind(TagOf(types[k]));
        assert Classify(t, types, fp).value == x;
      case OutOfRange =>
        assert Classify(t, types, fp).value == VString(v);
      case InvalidArgument =>
        assert Classify(t, types, fp) == Skip(WrongType(k, types[k], v));
    }
  }


  /** The effect `e` writes the entry of `key`. */
  predicate Writes(e: Effect, key: string)
  {
    e.Store? && e.key == key
  }

  /** The warnings one effect appends to the log. */
  function Logged(e: Effect): seq<Warning>
  {
    match e
    case CallHelp => []
    case Store(_, _, w) => w
    case Skip(w) => [w]
  }

  /** Applies one effect: only its own key's entry, the log and the help count can change. */
  function Apply(st: Parsed, e: Effect): (r: Parsed)
    ensures r.helpCalls == st.helpCalls + (if e.CallHelp? then 1 else 0)
    ensures r.warnings == st.warnings + Logged(e)
    ensures forall k :: !Writes(e, k) ==> Lookup(r.args, k) == Lookup(st.args, k)
    ensures e.Store? ==> r.args == st.args[e.key := e.value]
  {
    match e
    case CallHelp => st.(helpCalls := st.helpCalls + 1)
    case Store(k, x, w) => st.(args := st.args[k := x], warnings := st.warnings + w)
    case Skip(w) => st.(warnings := st.warnings + [w])
  }

  /**
   * One turn of the loop. A help flag only counts a callback; any other
   * token changes at most the entry of its own key and appends at most one
   * warning.
   */
  function Step(st: Parsed, t: CppString, types: map<string, string>, fp: FloatParsers): (r: Parsed)
    ensures IsHelp(t) ==> r == st.(helpCalls := st.helpCalls + 1)
    ensures !IsHelp(t) ==> r.helpCalls == st.helpCalls
    ensures forall k :: k != KeyOf(t) ==> Lookup(r.args, k) == Lookup(st.args, k)
    ensures |st.warnings| <= |r.warnings| <= |st.warnings| + 1
    ensures st.args.Keys <= r.args.Keys
  {
    var e := Classify(t, types, fp);
    var r := Apply(st, e);
    assert IsHelp(t) ==> r.args == st.args && r.warnings == st.warnings;
    r
  }

  /**
   * The loop over `tokens`, starting from `st`: no entry is ever removed,
   * and each token adds at most one help call and at most one warning.
   */
  function Run(st: Parsed, tokens: seq<CppString>, types: map<string, string>, fp: FloatParsers): (r: Parsed)
    ensures st.args.Keys <= r.args.Keys
    ensures st.helpCalls <= r.helpCalls <= st.helpCalls + |tokens|
    ensures |st.warnings| <= |r.warnings| <= |st.warnings| + |tokens|
    decreases |tokens|
  {
    if |tokens| == 0 then st
    else Step(Run(st, tokens[..|tokens| - 1], types, fp), tokens[|tokens| - 1], types, fp)
  }

  /** The map before the first token: only the program name, under the empty key, as a `char*`. */
  function Initial(program: string): (r: Parsed)
    ensures r.args.Keys == {""} && r.args[""] == VCharPtr(program)
    ensures r.warnings == [] && r.helpCalls == 0
  {
    Parsed(map["" := VCharPtr(program)], [], 0)
  }

  /**
   * `parse_arguments(argc, argv, value_types, on_help)`, with `argv` as a
   * sequence whose first element is the program name. The empty key always
   * has an entry, and no token calls `on_help` or logs more than once.
   */
  function ParseArguments(argv: seq<CppString>, types: map<string, string>, fp: FloatParsers): (r: Parsed)
    requires |argv| >= 1
    ensures "" in r.args
    ensures r.helpCalls <= |argv| - 1 && |r.warnings| <= |argv| - 1
  {
    Run(Initial(argv[0]), argv[1..], types, fp)
  }

  /** A command line of one token past the program name is one turn from the initial map. */
  lemma OneToken(argv: seq<CppString>, types: map<string, string>, fp: FloatParsers)
    requires |argv| == 2
    ensures ParseArguments(argv, types, fp) == Step(Initial(argv[0]), argv[1], types, fp)
  {
    var tokens := argv[1..];
    assert Run(Initial(argv[0]), tokens[..0], types, fp) == Initial(argv[0]) by {
      assert tokens[..0] == [];
    }
    assert tokens[0] == argv[1];
  }

  /** Parsing `a + b` is parsing `b` from where parsing `a` stopped. */
  lemma {:induction false} RunAppend(st: Parsed, a: seq<CppString>, b: seq<CppString>, types: map<string, string>, fp: FloatParsers)
    ensures Run(st, a + b, types, fp) == Run(Run(st, a, types, fp), b, types, fp)
    decreases |b|
  {
    if |b| > 0 {
      assert (a + b)[..|a + b| - 1] == a + b[..|b| - 1];
      assert (a + b)[|a + b| - 1] == b[|b| - 1];
      RunAppend(st, a, b[..|b| - 1], types, fp);
    } else {
      assert a + b == a;
    }
  }

  /** The number of help flags among the tokens. */
  function HelpFlags(tokens: seq<string>): nat
  {
    if |tokens| == 0 then 0
    else HelpFlags(tokens[..|tokens| - 1]) + (if IsHelp(tokens[|tokens| - 1]) then 1 else 0)
  }

  /** The warnings of each token in turn, as if every token were parsed on its own. */
  function TokenWarnings(tokens: seq<CppString>, types: map<string, string>, fp: FloatParsers): seq<Warning>
  {
    if |tokens| == 0 then []
    else TokenWarnings(tokens[..|tokens| - 1], types, fp) + Logged(Classify(tokens[|tokens| - 1], types, fp))
  }

  /**
   * `on_help` runs exactly once per help flag, and the warnings are those
   * each token causes on its own, in token order: neither depends on
   * what earlier tokens stored.
   */
  lemma {:induction false} RunLog(st: Parsed, tokens: seq<CppString>, types: map<string, string>, fp: FloatParsers)
    ensures Run(st, tokens, types, fp).helpCalls == st.helpCalls + HelpFlags(tokens)
    ensures Run(st, tokens, types, fp).warnings == st.warnings + TokenWarnings(tokens, types, fp)
    decreases |tokens|
  {
    if |tokens| > 0 {
      RunLog(st, tokens[..|tokens| - 1], types, fp);
    }
  }

  /** The position of the last token that writes `key`, if there is one. */
  function LastWrite(tokens: seq<CppString>, types: map<string, string>, fp: FloatParsers, key: string): (r: Option<nat>)
    ensures r.Some? ==> r.value < |tokens| && Writes(Classify(tokens[r.value], types, fp), key)
  {
    if |tokens| == 0 then None
    else if Writes(Classify(tokens[|tokens| - 1], types, fp), key) then Some(|tokens| - 1)
    else LastWrite(tokens[..|tokens| - 1], types, fp, key)
  }

  /** No token after the one `LastWrite` finds writes `key`; when it finds none, no token does. */
  lemma {:induction false} LastWriteIsLast(tokens: seq<CppString>, types: map<string, string>, fp: FloatParsers, key: string, j: nat)
    requires j < |tokens|
    requires match LastWrite(tokens, types, fp, key)
             case Some(i) => i < j
             case None => true
    ensures !Writes(Classify(tokens[j], types, fp), key)
    decreases |tokens|
  {
    var init := tokens[..|tokens| - 1];
    if Writes(Classify(tokens[|tokens| - 1], types, fp), key) {
      assert false;
    } else if j < |tokens| - 1 {
      assert LastWrite(tokens, types, fp, key) == LastWrite(init, types, fp, key);
      LastWriteIsLast(init, types, fp, key, j);
      assert init[j] == tokens[j];
    }
  }

  /**
   * Last write wins: after the loop an entry holds what the last token that
   * writes its key stored, and a key no token writes keeps its entry, or
   * its absence, from before the loop.
   */
  lemma {:induction false} EntryIsLastWrite(st: Parsed, tokens: seq<CppString>, types: map<string, string>, fp: FloatParsers, key: string)
    ensures Lookup(Run(st, tokens, types, fp).args, key) ==
              match LastWrite(tokens, types, fp, key)
              case Some(i) => Some(Classify(tokens[i], types, fp).value)
              case None => Lookup(st.args, key)
    decreases |tokens|
  {
    if |tokens| > 0 {
      var init := tokens[..|tokens| - 1];
      var last := Classify(tokens[|tokens| - 1], types, fp);
      EntryIsLastWrite(st, init, types, fp, key);
      var before := Run(st, init, types, fp);
      assert Run(st, tokens, types, fp) == Apply(before, last);
      if !Writes(last, key) {
        assert LastWrite(tokens, types, fp, key) == LastWrite(init, types, fp, key);
        match LastWrite(init, types, fp, key)
        case Some(i) => assert init[i] == tokens[i];
        case None =>
      }
    }
  }

  /**
   * The map `parse_arguments` returns, entry by entry: the value of the last
   * token that writes the key, or else the program name under the empty
   * key, and no entry at all for any other key.
   */
  lemma ParsedEntry(argv: seq<CppString>, types: map<string, string>, fp: FloatParsers, key: string)
    requires |argv| >= 1
    ensures Lookup(ParseArguments(argv, types, fp).args, key) ==
              match LastWrite(argv[1..], types, fp, key)
              case Some(i) => Some(Classify(argv[1 + i], types, fp).value)
              case None => if key == "" then Some(VCharPtr(argv[0])) else None
  {
    EntryIsLastWrite(Initial(argv[0]), argv[1..], types, fp, key);
  }

  /**
   * Every entry has the kind its declared type converts to, or is raw text;
   * only the program name, under the empty key, is a `char*`.
   */
  lemma ParsedKinds(argv: seq<CppString>, types: map<string, string>, fp: FloatParsers, key: string)
    requires |argv| >= 1
    requires key in ParseArguments(argv, types, fp).args
    ensures var v := ParseArguments(argv, types, fp).args[key];
            || KindOf(v) == KString
            || (key in types && KindOf(v) == TagKind(TagOf(types[key])))
            || (key == "" && v == VCharPtr(argv[0]))
  {
    ParsedEntry(argv, types, fp, key);
    match LastWrite(argv[1..], types, fp, key)
    case Some(i) => ClassifyShapes(argv[1 + i], types, fp);
    case None =>
  }

  /** Unless some token has an empty key, the empty key keeps the program name. */
  lemma ProgramNameKept(argv: seq<CppString>, types: map<string, string>, fp: FloatParsers)
    requires |argv| >= 1
    requires forall i :: 1 <= i < |argv| && !IsHelp(argv[i]) ==> KeyOf(argv[i]) != ""
    ensures "" in ParseArguments(argv, types, fp).args
    ensures ParseArguments(argv, types, fp).args[""] == VCharPtr(argv[0])
  {
    ParsedEntry(argv, types, fp, "");
    var tokens := argv[1..];
    assert forall j :: 0 <= j < |tokens| ==> tokens[j] == argv[1 + j];
  }
}
