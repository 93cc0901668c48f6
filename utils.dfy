/** Command-line lookup of src/utils.ts. The process arguments are an explicit
    parameter instead of the global `process.argv`; `undefined` is `None`. */
module Utils {
  import opened Wrappers

  /** `Array.prototype.indexOf`: the position of the first element equal to
      `x`, or -1 when there is none. */
  function IndexOf(s: seq<string>, x: string): (r: int)
    ensures -1 <= r < |s|
    ensures r == -1 <==> x !in s
    ensures r >= 0 ==> s[r] == x && x !in s[..r]
  {
    if s == [] then -1
    else if s[0] == x then 0
    else
      var j := IndexOf(s[1..], x);
      if j == -1 then -1 else j + 1
  }

  /** The element after the first occurrence of `argName`; a missing or empty
      value (both falsy in JavaScript) is `None`. */
  function GetArgument(argv: seq<string>, argName: string): (r: Option<string>)
    ensures r.Some? ==> r.value != ""
    ensures r.Some? ==> exists i :: 0 <= i < |argv| - 1 && argv[i] == argName && argName !in argv[..i] && argv[i + 1] == r.value
    ensures argName !in argv ==> r == None
  {
    var argId := IndexOf(argv, argName);
    var argVal := if argId > -1 && argId + 1 < |argv| then Some(argv[argId + 1]) else None;
    if argVal == None || argVal == Some("") then None else argVal
  }

  /** Only the first occurrence of the flag matters: whatever follows it is
      returned unchanged when non-empty, even if it looks like another flag. */
  lemma FirstOccurrenceDecides(argv: seq<string>, argName: string, i: nat)
    requires i < |argv| && argv[i] == argName && argName !in argv[..i]
    ensures GetArgument(argv, argName) == if i + 1 < |argv| && argv[i + 1] != "" then Some(argv[i + 1]) else None
  {
  }

  /** A flag followed by a value, after a prefix that lacks the flag, yields
      that value whatever comes later, and `None` when the value is empty. */
  lemma FlagThenValue(pre: seq<string>, argName: string, value: string, rest: seq<string>)
    requires argName !in pre
    ensures GetArgument(pre + [argName, value] + rest, argName) == if value == "" then None else Some(value)
  {
    var argv := pre + [argName, value] + rest;
    assert argv[..|pre|] == pre;
    FirstOccurrenceDecides(argv, argName, |pre|);
  }

  /** A flag given as the last argument has no value. */
  lemma FlagLast(pre: seq<string>, argName: string)
    requires argName !in pre
    ensures GetArgument(pre + [argName], argName) == None
  {
    var argv := pre + [argName];
    assert argv[..|pre|] == pre;
    FirstOccurrenceDecides(argv, argName, |pre|);
  }
}
