/**
 * The part of Go's `fmt.Sprintf` that the error messages rely on, for string
 * arguments: `%s` and `%v` take the next argument, `%%` is a percent sign,
 * and the error annotations Go writes for a missing argument, a verb that
 * does not suit a string, a dangling `%` and arguments left over.
 */
module Fmt {

  /**
   * Go's `fmt.Sprintf(format, args...)` where every argument is a string. With
   * no arguments, a format without any `%` is copied verbatim.
   */
  function Sprintf(format: string, args: seq<string>): (r: string)
    ensures args == [] && '%' !in format ==> r == format
    decreases |format|
  {
    if format == [] then
      (if args == [] then "" else "%!(EXTRA " + ExtraList(args) + ")")
    else if format[0] != '%' then
      [format[0]] + Sprintf(format[1..], args)
    else if |format| == 1 then
      "%!(NOVERB)" + Sprintf([], args)
    else if format[1] == '%' then
      "%" + Sprintf(format[2..], args)
    else if args == [] then
      "%!" + [format[1]] + "(MISSING)" + Sprintf(format[2..], args)
    else if format[1] == 's' || format[1] == 'v' then
      args[0] + Sprintf(format[2..], args[1..])
    else
      "%!" + [format[1]] + "(string=" + args[0] + ")" + Sprintf(format[2..], args[1..])
  }

  /** The list of unused arguments as Go annotates them: `string=a, string=b`. */
  function ExtraList(args: seq<string>): string
    requires args != []
  {
    if |args| == 1 then "string=" + args[0]
    else "string=" + args[0] + ", " + ExtraList(args[1..])
  }

  /** Plain text before the first directive is copied ahead of the rest. */
  lemma {:induction false} SprintfPrefix(prefix: string, rest: string, args: seq<string>)
    requires '%' !in prefix
    ensures Sprintf(prefix + rest, args) == prefix + Sprintf(rest, args)
  {
    if prefix == [] {
      assert prefix + rest == rest;
    } else {
      var whole := prefix + rest;
      assert whole[0] == prefix[0] != '%';
      assert whole[1..] == prefix[1..] + rest;
      assert Sprintf(whole, args) == [prefix[0]] + Sprintf(whole[1..], args);
      assert '%' !in prefix[1..];
      SprintfPrefix(prefix[1..], rest, args);
      assert prefix == [prefix[0]] + prefix[1..];
    }
  }

  /** One `%s` between plain text takes exactly the one argument given. */
  lemma SprintfOne(prefix: string, arg: string, suffix: string)
    requires '%' !in prefix && '%' !in suffix
    ensures Sprintf(prefix + "%s" + suffix, [arg]) == prefix + arg + suffix
  {
    var directive := "%s" + suffix;
    assert prefix + "%s" + suffix == prefix + directive;
    SprintfPrefix(prefix, directive, [arg]);
    assert directive[0] == '%' && directive[1] == 's' && directive[2..] == suffix;
    assert |directive| > 1 && [arg][0] == arg && [arg][1..] == [];
    assert Sprintf(directive, [arg]) == arg + Sprintf(suffix, []);
  }
}
