/**
 * The template `arg(arguments, arg_name, defaultval)`: a lookup whose
 * result type `T` is the type of the default. The map is taken by value
 * and never changed.
 */
module Accessor {
  import opened Base
  import opened Values

  /** `std::bad_any_cast`: the entry holds a different dynamic type from the one requested. */
  datatype ArgError = BadAnyCast(stored: Kind, requested: Kind)

  /**
   * The stored value when the key is present and of the default's kind;
   * the default when the key is absent; otherwise a fault, never a silent
   * fall-back to the default.
   */
  function Arg(args: map<string, Value>, name: string, default: Value): (r: Result<Value, ArgError>)
    ensures name !in args ==> r == Ok(default)
    ensures r.Ok? ==> KindOf(r.value) == KindOf(default)
    ensures name in args ==> (r.Ok? <==> KindOf(args[name]) == KindOf(default))
    ensures name in args && r.Ok? ==> r.value == args[name]
    ensures r.Err? ==> name in args && r.error == BadAnyCast(KindOf(args[name]), KindOf(default))
  {
    if name !in args then Ok(default)
    else if KindOf(args[name]) == KindOf(default) then Ok(args[name])
    else Err(BadAnyCast(KindOf(args[name]), KindOf(default)))
  }
}
