# tp_args in Dafny

A model of the header-only C++ library `tp_args.hpp` and proofs about it. The library has two entry points:

- `parse_arguments(argc, argv, value_types, on_help)` turns the tokens of a command line into a `std::map<std::string, std::any>`. A token is cut at its first `=` into a name and a value. The value is converted to the type `value_types` declares for the name: `int`, `unsigned`, `unsigned long`, `float`, `double`, `bool`, or anything else, which is kept as text. The two exception handlers decide what a failed conversion does.
- `arg(arguments, name, default)` reads one entry back, with the type of the default.

The files, in dependency order:

- `base.dfy` (`Base`): `Option`, `Result`, and map lookup.
- `tokens.dfy` (`Tokens`): `std::string::find`, `substr` and `erase` with 64-bit `size_type` arithmetic, `npos` included, and the cut of a token at its first `=`.
- `numbers.dfy` (`Numbers`): `std::stoi` and `std::stoul` as base-10 `strtol`/`strtoul`. These skip leading white space, take an optional sign and the longest run of digits, and ignore the rest. `int` is 32-bit and `unsigned long` is 64-bit. `(unsigned)` keeps the low 32 bits. Also `std::to_string` as a decimal spelling, for round trips.
- `values.dfy` (`Values`): what an entry's `std::any` holds, its dynamic type, and the type names a declaration may use.
- `parser.dfy` (`Parser`): `parse_arguments` as a left fold of one step per token, with a log of the warnings written to `std::cerr` and a count of `on_help` calls.
- `accessor.dfy` (`Accessor`): the template `arg`.
- `scenarios.dfy` (`Scenarios`): what one more token of each kind does from any state of the parse, and what `arg` then answers.
- `examples.dfy` (`Examples`): concrete command lines, including the usage example in the header's documentation.

Where the code behaves otherwise than a reader of the prose documentation might expect, the model follows the code:

- The program name is stored under the empty key as the `char*` `argv[0]`, not as a `std::string`. Reading it back with a `std::string` default therefore faults.
- A conversion that throws `invalid_argument` writes nothing. An entry an earlier token stored stays as it was; it is not removed.
- A number too large for its type throws `out_of_range`. The same handler as for an undeclared name then stores the raw text. A typed `arg` on that name then faults rather than giving the default.
- `stoul` accepts a minus sign and negates modulo 2^64, so `-1` for an `unsigned long` is `ULONG_MAX`.
- `(unsigned)stoul(v)` truncates without any warning.

## Model

| member | source | states |
|---|---|---|
| Tokens.Substr | tp_args.hpp:73 | `substr(pos, n)` is the slice of the string from `pos`, at most `n` long, and shorter only when it reaches the end |
| Tokens.Erase | tp_args.hpp:74 | `erase(pos, n)` removes a slice of at most `n` characters starting at `pos`, fewer only when it reaches the end, and keeps the rest in order |
| Tokens.SizeAdd | tp_args.hpp:74 | `find(...) + length()` is computed modulo 2^64, so `npos + 1` is 0 |
| Tokens.Find | tp_args.hpp:73 | `find` returns `npos` exactly when the character is absent, and otherwise the index of its first occurrence |
| Tokens.SplitToken | tp_args.hpp:72-74 | with an `=`, the token is key + "=" + value and the key holds no `=`; without one, both key and value are the whole token |
| Tokens.SplitJoin | tp_args.hpp:10-12 | cutting `k=v` for a `k` without `=` gives back `k` and `v`, whatever `=` signs `v` holds: only the first `=` separates |
| Numbers.ScanSubjectSpec | tp_args.hpp:77 | the scan returns a subject sequence (longest white-space prefix, optional sign, longest non-empty digit run) exactly when the string has one |
| Numbers.ScanFinds | tp_args.hpp:77 | whenever a string has a subject sequence, the scan returns exactly that one |
| Numbers.SubjectUnique | tp_args.hpp:77 | a string has at most one subject sequence |
| Numbers.StoI | tp_args.hpp:77 | `std::stoi`; what it returns is stated by `Numbers.StoISpec` |
| Numbers.StoISpec | tp_args.hpp:77 | `stoi` throws `invalid_argument` exactly when there is no subject sequence; otherwise it gives the sequence's signed value, or `out_of_range` outside 32-bit `int` |
| Numbers.NegateULong | tp_args.hpp:81 | `strtoul`'s negation is the additive inverse modulo 2^64, and is zero only for zero |
| Numbers.StoUL | tp_args.hpp:81 | `std::stoul`; what it returns is stated by `Numbers.StoULSpec` |
| Numbers.StoULSpec | tp_args.hpp:81 | `stoul` throws `invalid_argument` exactly when there is no subject sequence; a magnitude past `ULONG_MAX` is `out_of_range`; otherwise the value, negated modulo 2^64 after a minus sign |
| Numbers.LowBits32 | tp_args.hpp:79 | the `(unsigned)` cast is congruent to its argument modulo 2^32 and leaves any value below 2^32 unchanged |
| Numbers.StoU | tp_args.hpp:79 | `(unsigned)stoul` throws exactly what `stoul` throws, and otherwise keeps the low 32 bits of its value |
| Numbers.StoIRoundTrip | tp_args.hpp:76-77 | `stoi(to_string(n))` is `n` for every 32-bit `n`, whatever non-digit text follows |
| Numbers.StoISigned | tp_args.hpp:77 | `stoi` of an optional minus sign, a decimal spelling and a non-digit tail is that signed number, range-checked |
| Numbers.StoIOutOfRange | tp_args.hpp:77 | any decimal spelling past the `int` range, of either sign, makes `stoi` throw `out_of_range` |
| Numbers.StoULSigned | tp_args.hpp:80-81 | `stoul` of an optional minus sign, a decimal spelling and a tail: `out_of_range` past `ULONG_MAX`, otherwise the magnitude, negated after a minus |
| Numbers.StoULRoundTrip | tp_args.hpp:80-81 | `stoul(to_string(n))` is `n` for every 64-bit `n` |
| Numbers.StoULNegates | tp_args.hpp:80-81 | `stoul("-" + to_string(m))` is the negation of `m` modulo 2^64 |
| Numbers.StoULOutOfRange | tp_args.hpp:80-81 | a magnitude past `ULONG_MAX` makes `stoul` throw `out_of_range` |
| Numbers.StoUTruncates | tp_args.hpp:78-79 | for every 64-bit `n`, `(unsigned)stoul(to_string(n))` is the low 32 bits of `n`, with no exception |
| Numbers.IntOverflowLiteral | tp_args.hpp:77 | "2147483648" is out of range for `stoi` |
| Numbers.TwoToThe32Literal | tp_args.hpp:78-79 | "4294967296" reads as 2^32 for `stoul` and becomes 0 as `unsigned` |
| Values.TagOf | tp_args.hpp:76-89 | a declared type name selects the conversion whose exact name it is; any other name falls through to storing the text |
| Parser.Convert | tp_args.hpp:75-89 | an undeclared name throws `out_of_range`; a converted value has the kind of the declared type; only numeric types can throw `invalid_argument`; the value per type is stated by `Parser.ConvertByType` |
| Parser.ConvertByType | tp_args.hpp:75-89 | per declared type: `int`, `unsigned` and `unsigned long` convert or throw exactly as `stoi`, `(unsigned)stoul` and `stoul` do; `float` and `double` exactly as the supplied `stof` and `stod`; `bool` is true exactly for "true", "1" and "yes"; any other type name keeps the text |
| Parser.Classify | tp_args.hpp:67-98 | a token calls `on_help` exactly when it is `--help` or `-h`; any write goes to the token's own key and logs at most one warning |
| Parser.ClassifyByType | tp_args.hpp:76-98 | per declared type: an undeclared name stores its text with a warning; `bool` stores whether the text is "true", "1" or "yes"; `string` stores the text; `int` stores the value, or the text with a warning when out of range, or nothing with a warning when there is no digit |
| Parser.ClassifyByOutcome | tp_args.hpp:75-98 | a token is skipped exactly when its conversion throws `invalid_argument`; a converted value is stored under the token's key with no warning; `out_of_range` stores the raw text with a warning |
| Parser.ClassifyShapes | tp_args.hpp:75-98 | a stored value is text or of the declared type's kind; a skip happens only for a declared name and logs the declared type name |
| Parser.Apply | tp_args.hpp:77-93 | one effect changes only its own key's entry, appends its warnings to the log, and counts a help call |
| Parser.Initial | tp_args.hpp:65-66 | before any token, the map holds only the program name, as a `char*` under the empty key, and nothing is logged |
| Parser.Run | tp_args.hpp:67 | the loop never removes an entry, and each token adds at most one `on_help` call and at most one warning |
| Parser.Step | tp_args.hpp:67-98 | a help flag changes nothing but the help count; any other token leaves every other key's entry alone and logs at most one warning |
| Parser.OneToken | tp_args.hpp:65-67 | a command line with one token past the program name is one step from the map that holds only the program name |
| Parser.RunAppend | tp_args.hpp:67 | the tokens are handled in order: parsing `a + b` is parsing `b` from where parsing `a` stopped |
| Parser.RunLog | tp_args.hpp:68-70 | `on_help` runs once per help flag, and the warnings are each token's own warnings in token order, whatever earlier tokens stored |
| Parser.LastWrite | tp_args.hpp:48-52 | the position found holds a token that writes the key |
| Parser.LastWriteIsLast | tp_args.hpp:48-52 | no token after the position found writes the key, and when none is found, no token writes it |
| Parser.EntryIsLastWrite | tp_args.hpp:48-52 | last write wins: after the loop an entry holds what the last token writing its key stored, or what it held before if no token writes it |
| Parser.ParseArguments | tp_args.hpp:61-101 | the result always has an entry for the empty key; `on_help` runs and warnings are logged at most once per token after the program name; each entry is stated by `Parser.ParsedEntry` |
| Parser.ParsedEntry | tp_args.hpp:61-101 | each entry of the result is the last write to its key, or the `char*` program name under the empty key, and there is no entry for any other key |
| Parser.ParsedKinds | tp_args.hpp:61-101 | every entry is text, or of the kind its declared type converts to, or the `char*` program name under the empty key |
| Parser.ProgramNameKept | tp_args.hpp:65-66 | unless a token has an empty name, the empty key holds `argv[0]` as a `char*` |
| Accessor.Arg | tp_args.hpp:115-122 | a missing name gives the default; a present one gives the stored value exactly when its dynamic type is the default's; otherwise a `bad_any_cast` fault, never a fall-back to the default; the model's `BadAnyCast(stored, requested)` records both kinds, which `std::bad_any_cast` itself does not carry |
| Scenarios.ParseSnoc | tp_args.hpp:67 | one more token on the command line is one more turn of the loop |
| Scenarios.PairParts | tp_args.hpp:68-74 | `k=v` with no `=` in `k` is not a help flag, and is cut into `k` and `v` |
| Scenarios.HelpFlag | tp_args.hpp:68-71 | a help flag at the end of any command line changes nothing but the count of `on_help` calls |
| Scenarios.PairStep | tp_args.hpp:75-98 | from any state, the token `k=v` stores the converted value, or the text with a warning on `out_of_range`, or skips with a warning on `invalid_argument`, decided by the conversion alone |
| Scenarios.UndeclaredKey | tp_args.hpp:90-93 | an undeclared name is stored as its text, and `arg` with a string default returns that text, with one warning |
| Scenarios.DeclaredString | tp_args.hpp:88-89 | a name declared `string`, or with an unrecognised type name, is stored as its text with no warning |
| Scenarios.DeclaredInt | tp_args.hpp:76-77 | a declared `int` given `to_string(n)` stores `n` with no warning, whatever came before |
| Scenarios.IntLine | tp_args.hpp:16-17 | on the command line `prog k=to_string(n)` with `k` declared `int`, `arg` returns `n` and nothing is logged |
| Scenarios.Unconvertible | tp_args.hpp:94-97 | a value the declared type cannot read writes nothing: the map and `arg`'s answer stay as they were, and one warning names the declared type |
| Scenarios.FailedTokenInvisible | tp_args.hpp:94-98 | appending a token whose value does not convert leaves `arg`'s answer for its name unchanged on any command line |
| Scenarios.DeclaredBool | tp_args.hpp:86-87 | from any state, a declared `bool` is stored as true exactly for "true", "1" and "yes", `arg` with a `bool` default returns it, and nothing is logged |
| Scenarios.BoolLine | tp_args.hpp:86-87 | on the command line `prog k=v` with `k` declared `bool`, `arg` returns whether `v` is "true", "1" or "yes", and nothing is logged |
| Scenarios.IntOutOfRange | tp_args.hpp:90-93 | a number too large for `int` is stored as text with a warning, so `arg` with an `int` default faults instead of giving the default |
| Scenarios.UnsignedWraps | tp_args.hpp:78-79 | a declared `unsigned` stores the low 32 bits of what `stoul` reads, with no warning |
| Scenarios.ProgramNameIsCharPtr | tp_args.hpp:66 | the program name can be read back with a `char*` default but faults with a `std::string` default |
| Examples.NoDigits | tp_args.hpp:77 | `stoi` throws `invalid_argument` on "abc" and on "" |
| Examples.HeightExample | tp_args.hpp:16-17 | `./a.out height=5` with `{"height": "int"}` gives `arg(arguments, "height", 0) == 5` and logs nothing |
| Examples.MalformedIntExample | tp_args.hpp:94-97 | `x=abc` for an `int` logs a wrong-type warning, and `arg` gives the default |
| Examples.EmptyIntExample | tp_args.hpp:94-97 | `x=` for an `int` stores nothing, rather than zero, and logs a warning |
| Examples.DuplicateExample | tp_args.hpp:50-52 | `x=1 x=2` stores only 2 |
| Examples.UnknownKeyExample | tp_args.hpp:90-93 | an undeclared `y=foo` is stored as "foo" with one warning |
| Examples.SecondEqualsExample | tp_args.hpp:10-11 | `a=b=c` has the value "b=c" |
| Examples.NoEqualsExample | tp_args.hpp:73-74 | a token with no `=` is stored under itself with itself as value |
| Examples.BoolYesExample | tp_args.hpp:86-87 | `f=yes` for a `bool` reads as true |
| Examples.BoolUpperCaseExample | tp_args.hpp:86-87 | `f=YES` for a `bool` stores false: the literals are case-sensitive |
| Examples.MismatchExample | tp_args.hpp:119-121 | an `int` entry read with a `std::string` default throws `bad_any_cast` |
| Examples.HelpExample | tp_args.hpp:68-70 | `-h` runs `on_help` once and the map holds only the program name |

## Left out

- `std::stof` and `std::stod` are not defined here. They are parameters of the parse (`FloatParsers`) that may convert or throw either exception. Floating-point reading and arithmetic are out of scope, and a `float` or `double` is an opaque bit pattern.
- The text written to `std::cerr` is not modelled. Each line is a `Warning` value that carries the name, the value and, for a wrong type, the declared type name.
- `on_help` is modelled only by counting its calls; what the callback does is the caller's code.
- `argc`/`argv` become a sequence of strings whose first element is the program name. Reading the C strings and building the `std::vector` are not modelled.
- The `operator<<` for `std::any` (tp_args.hpp:126-145) only writes output and is compiled only on request, so it is not modelled.
- `test.cpp` calls an `arg(argc, argv, name, default, description)` overload and `args_info` that `tp_args.hpp` does not define, so it is not part of this model.
- `arg` with a `const char*` default is not modelled. That is a different dynamic type from the `char*` the program name is stored as, so such a call faults in C++. The model covers a `char*` default (`VCharPtr`).
- Integer widths follow an LP64 platform: `int` has 32 bits, and `unsigned long` and `size_t` have 64. White space is `isspace` in the "C" locale.
- Parser.ConvertByType: for `float` and `double` it states the result in terms of the supplied `stof` and `stod`, so which strings convert, and to what, is not modelled.
- Strings are sequences of Unicode scalar values, while a `std::string` from `argv` is a sequence of bytes. Every character the parse inspects (`=`, digits, signs, white space, the help flags, the bool literals) is ASCII, so the two agree on valid UTF-8. Bytes that are not valid UTF-8 are not modelled, and the bound `|s| < npos` counts characters rather than bytes.
- Exceptions other than `invalid_argument` and `out_of_range`, such as `bad_alloc`, are not modelled.
