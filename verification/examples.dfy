/**
 * Concrete command lines: the usage example in the library's own
 * documentation and one line for each rule of the error policy.
 */
module Examples {
  import opened Base
  import opened Tokens
  import opened Numbers
  import opened Values
  import opened Parser
  import opened Accessor
  import opened Scenarios

  /** `stoi` reads no digit in "abc" nor in "". */
  lemma NoDigits()
    ensures StoI("abc") == InvalidArgument
    ensures StoI("") == InvalidArgument
  {
  }

  /** `./a.out height=5` with `{"height": "int"}`: `arg(arguments, "height", 0)` is 5. */
  lemma HeightExample(argv: seq<CppString>, types: map<string, string>, fp: FloatParsers)
    requires argv == ["a.out", "height=5"] && types == map["height" := "int"]
    ensures var parsed := ParseArguments(argv, types, fp);
            && Arg(parsed.args, "height", VInt(0)) == Ok(VInt(5))
            && parsed.warnings == []
  {
    assert IntToDecimal(5) == "5";
    assert Pair("height", "5") == "height=5";
    IntLine(argv, "height", 5, types, fp, 0);
  }

  /** "x=abc" for an `int` is logged and not stored, so `arg` gives the default. */
  lemma MalformedIntExample(argv: seq<CppString>, types: map<string, string>, fp: FloatParsers)
    requires argv == ["p", "x=abc"] && types == map["x" := "int"]
    ensures var parsed := ParseArguments(argv, types, fp);
            && Arg(parsed.args, "x", VInt(0)) == Ok(VInt(0))
            && parsed.warnings == [WrongType("x", "int", "abc")]
  {
    NoDigits();
    assert Pair("x", "abc") == "x=abc";
    OneToken(argv, types, fp);
    Unconvertible(Initial("p"), "x", "abc", types, fp, VInt(0));
  }

  /** An empty value for an `int` is a failed conversion too, not a zero. */
  lemma EmptyIntExample(argv: seq<CppString>, types: map<string, string>, fp: FloatParsers)
    requires argv == ["p", "x="] && types == map["x" := "int"]
    ensures var parsed := ParseArguments(argv, types, fp);
            && "x" !in parsed.args
            && parsed.warnings == [WrongType("x", "int", "")]
  {
    NoDigits();
    assert Pair("x", "") == "x=";
    OneToken(argv, types, fp);
    Unconvertible(Initial("p"), "x", "", types, fp, VInt(0));
  }

  /** "x=1 x=2": the last value wins. */
  lemma DuplicateExample(argv: seq<CppString>, types: map<string, string>, fp: FloatParsers)
    requires argv == ["p", "x=1", "x=2"] && types == map["x" := "int"]
    ensures Arg(ParseArguments(argv, types, fp).args, "x", VInt(0)) == Ok(VInt(2))
  {
    assert IntToDecimal(2) == "2";
    assert Pair("x", "2") == "x=2";
    assert ["p", "x=1"] + ["x=2"] == argv;
    ParseSnoc(["p", "x=1"], "x=2", types, fp);
    DeclaredInt(ParseArguments(["p", "x=1"], types, fp), "x", 2, types, fp, 0);
  }

  /** "y=foo" with only `x` declared: stored as text, with one warning. */
  lemma UnknownKeyExample(argv: seq<CppString>, types: map<string, string>, fp: FloatParsers)
    requires argv == ["p", "y=foo"] && types == map["x" := "int"]
    ensures var parsed := ParseArguments(argv, types, fp);
            && Arg(parsed.args, "y", VString("")) == Ok(VString("foo"))
            && parsed.warnings == [UnknownOrBadType("y", "foo")]
  {
    assert Pair("y", "foo") == "y=foo";
    OneToken(argv, types, fp);
    UndeclaredKey(Initial("p"), "y", "foo", types, fp, "");
  }

  /** "a=b=c": only the first `=` separates, so the value is "b=c". */
  lemma SecondEqualsExample(argv: seq<CppString>, types: map<string, string>, fp: FloatParsers)
    requires argv == ["p", "a=b=c"] && types == map[]
    ensures Arg(ParseArguments(argv, types, fp).args, "a", VString("")) == Ok(VString("b=c"))
  {
    assert Pair("a", "b=c") == "a=b=c";
    OneToken(argv, types, fp);
    UndeclaredKey(Initial("p"), "a", "b=c", types, fp, "");
  }

  /** A token with no `=` is its own key and its own value. */
  lemma NoEqualsExample(argv: seq<CppString>, types: map<string, string>, fp: FloatParsers)
    requires argv == ["p", "verbose"] && types == map[]
    ensures Lookup(ParseArguments(argv, types, fp).args, "verbose") == Some(VString("verbose"))
  {
    assert '=' !in "verbose";
    OneToken(argv, types, fp);
  }

  /** "yes" is one of the true literals. */
  lemma BoolYesExample(argv: seq<CppString>, types: map<string, string>, fp: FloatParsers)
    requires argv == ["p", "f=yes"] && types == map["f" := "bool"]
    ensures Arg(ParseArguments(argv, types, fp).args, "f", VBool(false)) == Ok(VBool(true))
  {
    assert Pair("f", "yes") == "f=yes";
    BoolLine(argv, "f", "yes", types, fp, false);
  }

  /** The literals are case-sensitive: "YES" stores false. */
  lemma BoolUpperCaseExample(argv: seq<CppString>, types: map<string, string>, fp: FloatParsers)
    requires argv == ["p", "f=YES"] && types == map["f" := "bool"]
    ensures Lookup(ParseArguments(argv, types, fp).args, "f") == Some(VBool(false))
  {
    assert Pair("f", "YES") == "f=YES";
    OneToken(argv, types, fp);
    DeclaredBool(Initial("p"), "f", "YES", types, fp, false);
    assert Lookup(ParseArguments(argv, types, fp).args, "f") == Some(VBool("YES" == "true" || "YES" == "1" || "YES" == "yes"));
    assert "YES"[0] != "yes"[0];
  }

  /** An `int` stored under a key cannot be read with a `std::string` default. */
  lemma MismatchExample(argv: seq<CppString>, types: map<string, string>, fp: FloatParsers)
    requires argv == ["p", "x=5"] && types == map["x" := "int"]
    ensures Arg(ParseArguments(argv, types, fp).args, "x", VString("0")) == Err(BadAnyCast(KInt, KString))
  {
    var parsed := ParseArguments(argv, types, fp);
    assert Arg(parsed.args, "x", VInt(0)) == Ok(VInt(5)) by {
      assert IntToDecimal(5) == "5";
      assert Pair("x", "5") == "x=5";
      IntLine(argv, "x", 5, types, fp, 0);
    }
    assert "x" in parsed.args && parsed.args["x"] == VInt(5);
  }

  /** "-h": `on_help` runs once and the map holds only the program name. */
  lemma HelpExample(argv: seq<CppString>, types: map<string, string>, fp: FloatParsers)
    requires argv == ["p", "-h"] && types == map[]
    ensures var parsed := ParseArguments(argv, types, fp);
            && parsed.helpCalls == 1
            && parsed.args == map["" := VCharPtr("p")]
  {
    assert ["p"] + ["-h"] == argv;
    HelpFlag(["p"], "-h", types, fp);
  }
}
