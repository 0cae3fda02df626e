/**
 * The consuming option lookup of weka.core.Utils (getOptionPos / getOption) that
 * every parse routine goes through. The token array is scanned for the first
 * element equal to "-" + flag; the token after it is the value, and both are
 * overwritten with "" so that later scans no longer see them.
 */
module WekaUtils {
  import opened Wrappers

  /** The exceptions the option code can raise. */
  datatype Exception =
    | NoValueGiven(flag: string)       // "-flag" is the last token: "No value given for -flag option."
    | NumberFormat(text: string)       // NumberFormatException from Integer.parseInt / Long.parseLong
    | IllegalArgument(message: string) // IllegalArgumentException
    | IndexOutOfBounds                 // ArrayIndexOutOfBoundsException

  /** The token that introduces an option: the flag with a leading dash. */
  function FlagToken(flag: string): string {
    "-" + flag
  }

  /** The index of the first element of s equal to t, or -1 when there is none. */
  function FirstIndex(s: seq<string>, t: string): (i: int)
    ensures -1 <= i < |s|
    ensures i < 0 <==> t !in s
    ensures i >= 0 ==> s[i] == t && t !in s[..i]
  {
    if s == [] then -1
    else if s[0] == t then 0
    else
      var j := FirstIndex(s[1..], t);
      assert s[1..][..j + 1] == s[1..j + 2] by { }
      if j < 0 then -1 else j + 1
  }

  /** How often t occurs in s. */
  function Count(s: seq<string>, t: string): nat {
    multiset(s)[t]
  }

  /** The outcome of a parse step: a value or an exception, and the token sequence left behind. */
  datatype Parse<+T> = Parse(result: Result<T, Exception>, rest: seq<string>)

  /**
   * Utils.getOption on the token sequence s: the value of the first "-flag"
   * occurrence ("" when there is none) and the sequence with that pair blanked.
   */
  function Take(s: seq<string>, flag: string): (p: Parse<string>)
    ensures |p.rest| == |s|
    ensures FlagToken(flag) !in s ==> p == Parse(Ok(""), s)
    ensures p.result.Err? ==> p.rest == s
  {
    var i := FirstIndex(s, FlagToken(flag));
    if i < 0 then Parse(Ok(""), s)
    else if i + 1 == |s| then Parse(Err(NoValueGiven(flag)), s)
    else Parse(Ok(s[i + 1]), s[i := ""][i + 1 := ""])
  }

  /**
   * Each successful lookup of a present flag consumes at least one "-flag"
   * token: this bounds every loop that repeats the lookup.
   */
  lemma TakeConsumes(s: seq<string>, flag: string)
    requires FlagToken(flag) in s && Take(s, flag).result.Ok?
    ensures Count(Take(s, flag).rest, FlagToken(flag)) < Count(s, FlagToken(flag))
  {
    var i := FirstIndex(s, FlagToken(flag));
    var blanked := s[i := ""];
    assert Count(blanked, FlagToken(flag)) < Count(s, FlagToken(flag));
  }

  /** The first "-flag" is found behind any prefix that does not mention it. */
  lemma FirstIndexAfter(pre: seq<string>, t: string, post: seq<string>)
    requires t !in pre
    ensures FirstIndex(pre + [t] + post, t) == |pre|
  {
    var s := pre + [t] + post;
    assert s[|pre|] == t;
    assert s[..|pre|] == pre;
  }

  /**
   * Consuming a "-flag"/value pair that no earlier "-flag" shadows returns the
   * value and blanks exactly that pair; everything around it is kept.
   */
  lemma TakePair(pre: seq<string>, flag: string, v: string, post: seq<string>)
    requires FlagToken(flag) !in pre
    ensures Take(pre + [FlagToken(flag), v] + post, flag) == Parse(Ok(v), pre + ["", ""] + post)
  {
    var t := FlagToken(flag);
    var s := pre + [t, v] + post;
    assert s == pre + [t] + ([v] + post);
    FirstIndexAfter(pre, t, [v] + post);
    assert s[|pre| + 1] == v;
    assert s[|pre| := ""][|pre| + 1 := ""] == pre + ["", ""] + post;
  }

  /**
   * A lookup never touches tokens outside the matched pair: apart from the
   * first "-flag" and the token after it, every element is kept.
   */
  lemma TakeKeepsOthers(s: seq<string>, flag: string, k: nat)
    requires k < |s|
    requires FirstIndex(s, FlagToken(flag)) < 0 ||
             (k != FirstIndex(s, FlagToken(flag)) && k != FirstIndex(s, FlagToken(flag)) + 1)
    ensures Take(s, flag).rest[k] == s[k]
  {
  }

  /** Utils.getOptionPos: the index of the first "-flag" token, or -1. */
  method GetOptionPos(flag: string, options: array<string>) returns (pos: int)
    ensures pos == FirstIndex(options[..], FlagToken(flag))
  {
    var token := FlagToken(flag);
    pos := 0;
    while pos < options.Length
      invariant 0 <= pos <= options.Length
      invariant token !in options[..pos]
    {
      if options[pos] == token {
        assert options[..pos + 1] == options[..pos] + [token];
        FirstIndexAfter(options[..pos], token, options[pos + 1..]);
        assert options[..] == options[..pos] + [token] + options[pos + 1..];
        return;
      }
      assert options[..pos + 1] == options[..pos] + [options[pos]];
      pos := pos + 1;
    }
    assert options[..] == options[..pos];
    pos := -1;
  }

  /**
   * Utils.getOption: returns the token after the first "-flag" and blanks both;
   * returns "" and changes nothing when "-flag" is absent; raises NoValueGiven,
   * changing nothing, when "-flag" is the last token.
   */
  method GetOption(flag: string, options: array<string>) returns (r: Result<string, Exception>)
    modifies options
    ensures Parse(r, options[..]) == Take(old(options[..]), flag)
  {
    var i := GetOptionPos(flag, options);
    if i < 0 {
      return Ok("");
    }
    if i + 1 == options.Length {
      return Err(NoValueGiven(flag));
    }
    options[i] := "";
    var value := options[i + 1];
    options[i + 1] := "";
    return Ok(value);
  }
}
