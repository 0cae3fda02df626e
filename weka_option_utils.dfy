/**
 * WekaOptionUtils: parse and serialise option values over Weka's flat token
 * protocol. A parse looks up "-flag" in the caller's token array, consumes the
 * pair and converts the value, falling back to the default when the flag is
 * absent or its value is empty; an add appends "-flag" and the value's text to
 * the caller's list.
 */
module WekaOptionUtils {
  import opened Wrappers
  import opened JavaText
  import opened WekaUtils

  /** A java.io.File, identified by its path text. */
  datatype FilePath = FilePath(path: string)

  /**
   * A nested OptionHandler as Utils.forName receives it: the class name and the
   * option tokens, with the slot that held the class name blanked.
   */
  datatype Handler = Handler(className: string, options: seq<string>)

  /** A value handed to add(List, String, Object): an array of elements, or anything else. */
  datatype Value<T> = ArrayValue(elements: seq<T>) | NotArray

  /** One help entry (weka.core.Option): description, name, number of arguments, synopsis. */
  datatype HelpEntry = HelpEntry(description: string, name: string, numArguments: int, synopsis: string)

  // ---------------------------------------------------------------------------
  // Specification of the parse overloads, on the token sequence
  // ---------------------------------------------------------------------------

  /** The common tail of every scalar parse: "" means the default, anything else is converted. */
  function Convert<T>(p: Parse<string>, defValue: T, conv: string -> Result<T, Exception>): Parse<T> {
    match p.result
    case Err(e) => Parse(Err(e), p.rest)
    case Ok(v) => if v == "" then Parse(Ok(defValue), p.rest) else Parse(conv(v), p.rest)
  }

  function IntValue(v: string): Result<Int32, Exception> {
    match ParseInt32(v)
    case Some(n) => Ok(n)
    case None => Err(NumberFormat(v))
  }

  function LongValue(v: string): Result<Int64, Exception> {
    match ParseInt64(v)
    case Some(n) => Ok(n)
    case None => Err(NumberFormat(v))
  }

  /** parse(String[], String, int) */
  function IntOption(s: seq<string>, flag: string, defValue: Int32): Parse<Int32> {
    Convert(Take(s, flag), defValue, IntValue)
  }

  /** parse(String[], String, long) */
  function LongOption(s: seq<string>, flag: string, defValue: Int64): Parse<Int64> {
    Convert(Take(s, flag), defValue, LongValue)
  }

  /** parse(String[], String, String) */
  function StringOption(s: seq<string>, flag: string, defValue: string): Parse<string> {
    Convert(Take(s, flag), defValue, v => Ok(v))
  }

  /** parse(String[], String, File) */
  function FileOption(s: seq<string>, flag: string, defValue: FilePath): Parse<FilePath> {
    Convert(Take(s, flag), defValue, v => Ok(FilePath(v)))
  }

  /** fromCommandLine: split the command line, take slot 0 as the class name and blank it. */
  function FromCommandLineSpec(split: string -> seq<string>, cmdline: string): Result<Handler, Exception> {
    var tokens := split(cmdline);
    if |tokens| == 0 then Err(IndexOutOfBounds) else Ok(Handler(tokens[0], [""] + tokens[1..]))
  }

  /** forCommandLine: like fromCommandLine, but an all-blank command line is rejected first. */
  function ForCommandLineSpec(split: string -> seq<string>, cmdline: string): Result<Handler, Exception> {
    if IsBlank(cmdline) then Err(IllegalArgument("Empty commandline supplied!"))
    else FromCommandLineSpec(split, cmdline)
  }

  /** parse(String[], String, OptionHandler) */
  function HandlerOption(s: seq<string>, flag: string, defValue: Handler, split: string -> seq<string>): Parse<Handler> {
    Convert(Take(s, flag), defValue, v => ForCommandLineSpec(split, v))
  }

  /** Puts vs in front of the values a parse collected; an exception passes through. */
  function Prepend<T>(vs: seq<T>, p: Parse<seq<T>>): Parse<seq<T>> {
    match p.result
    case Ok(xs) => Parse(Ok(vs + xs), p.rest)
    case Err(e) => Parse(Err(e), p.rest)
  }

  /**
   * parse(String[], String): the values of all "-flag" occurrences, each
   * consumed in turn, until no occurrence is left.
   */
  function Collect(s: seq<string>, flag: string): (p: Parse<seq<string>>)
    ensures FlagToken(flag) !in s ==> p == Parse(Ok([]), s)
    decreases Count(s, FlagToken(flag))
  {
    if FlagToken(flag) !in s then Parse(Ok([]), s)
    else
      var first := Take(s, flag);
      match first.result
      case Err(e) => Parse(Err(e), first.rest)
      case Ok(v) => TakeConsumes(s, flag); Prepend([v], Collect(first.rest, flag))
  }

  /**
   * The gathering loop of parse(String[], String, OptionHandler[], Class): values
   * are consumed until the lookup returns "", so it stops at the first absent
   * flag or empty value.
   */
  function CollectNonEmpty(s: seq<string>, flag: string): (p: Parse<seq<string>>)
    ensures p.result.Ok? ==> forall i :: 0 <= i < |p.result.value| ==> p.result.value[i] != ""
    decreases Count(s, FlagToken(flag))
  {
    var first := Take(s, flag);
    match first.result
    case Err(e) => Parse(Err(e), first.rest)
    case Ok(v) =>
      if v == "" then Parse(Ok([]), first.rest)
      else TakeConsumes(s, flag); Prepend([v], CollectNonEmpty(first.rest, flag))
  }

  /** forCommandLine applied to every value in order; the first failure is raised. */
  function HandlersFor(split: string -> seq<string>, vs: seq<string>): Result<seq<Handler>, Exception> {
    if vs == [] then Ok([])
    else match ForCommandLineSpec(split, vs[0])
      case Err(e) => Err(e)
      case Ok(h) =>
        match HandlersFor(split, vs[1..])
        case Err(e) => Err(e)
        case Ok(hs) => Ok([h] + hs)
  }

  /**
   * The conversion succeeds exactly when every value is a valid command line,
   * with one handler per value in order; a failure is the exception of the
   * first value that does not convert.
   */
  lemma {:induction false} HandlersForMeaning(split: string -> seq<string>, vs: seq<string>)
    ensures var r := HandlersFor(split, vs);
            (r.Ok? <==> forall i :: 0 <= i < |vs| ==> ForCommandLineSpec(split, vs[i]).Ok?) &&
            (r.Ok? ==> |r.value| == |vs| && forall i :: 0 <= i < |vs| ==> ForCommandLineSpec(split, vs[i]) == Ok(r.value[i])) &&
            (r.Err? ==> exists i :: 0 <= i < |vs| && ForCommandLineSpec(split, vs[i]) == Err(r.error) &&
                                    forall j :: 0 <= j < i ==> ForCommandLineSpec(split, vs[j]).Ok?)
  {
    if vs != [] {
      HandlersForMeaning(split, vs[1..]);
      var r := HandlersFor(split, vs);
      var t := HandlersFor(split, vs[1..]);
      if ForCommandLineSpec(split, vs[0]).Ok? {
        assert forall i :: 1 <= i < |vs| ==> vs[i] == vs[1..][i - 1];
        if t.Err? {
          var k :| 0 <= k < |vs[1..]| && ForCommandLineSpec(split, vs[1..][k]) == Err(t.error) &&
                   forall j :: 0 <= j < k ==> ForCommandLineSpec(split, vs[1..][j]).Ok?;
          assert ForCommandLineSpec(split, vs[k + 1]) == Err(r.error);
          assert forall j :: 0 <= j < k + 1 ==> ForCommandLineSpec(split, vs[j]).Ok? by {
            forall j | 0 <= j < k + 1
              ensures ForCommandLineSpec(split, vs[j]).Ok?
            {
              if j > 0 {
                assert vs[j] == vs[1..][j - 1];
              }
            }
          }
        }
      } else {
        assert ForCommandLineSpec(split, vs[0]) == Err(r.error);
      }
    }
  }

  /** parse(String[], String, OptionHandler[], Class) */
  function HandlersOption(s: seq<string>, flag: string, defValue: seq<Handler>, split: string -> seq<string>): Parse<seq<Handler>> {
    var c := CollectNonEmpty(s, flag);
    match c.result
    case Err(e) => Parse(Err(e), c.rest)
    case Ok(vs) => if vs == [] then Parse(Ok(defValue), c.rest) else Parse(HandlersFor(split, vs), c.rest)
  }

  /**
   * parse(String[], String, Class): every "-flag" value, each turned into an
   * element by the class's String constructor; a failed construction leaves
   * the slot null (None).
   */
  function ArrayOption<T>(s: seq<string>, flag: string, construct: string -> Option<T>): Parse<seq<Option<T>>> {
    var c := Collect(s, flag);
    match c.result
    case Err(e) => Parse(Err(e), c.rest)
    case Ok(vs) => Parse(Ok(seq(|vs|, i requires 0 <= i < |vs| => construct(vs[i]))), c.rest)
  }

  // ---------------------------------------------------------------------------
  // Properties of the parse specification
  // ---------------------------------------------------------------------------

  /** The tokens add(List, String, Object) writes for the element texts vs: one "-flag"/text pair each. */
  function Pairs(flag: string, vs: seq<string>): seq<string> {
    if vs == [] then [] else [FlagToken(flag), vs[0]] + Pairs(flag, vs[1..])
  }

  /** The tokens of Pairs(flag, vs) once consumed: two blanks per value. */
  function BlankPairs(vs: seq<string>): seq<string> {
    if vs == [] then [] else ["", ""] + BlankPairs(vs[1..])
  }

  lemma Shift<T>(pre: seq<T>, x: seq<T>, mid: seq<T>, y: seq<T>, post: seq<T>)
    ensures pre + x + mid + y + post == pre + x + (mid + y + post)
  {
    Regroup(pre + x + mid, y, post);
    Regroup(pre + x, mid, y + post);
    Regroup(mid, y, post);
  }

  lemma ConsAppend<T>(vs: seq<T>, xs: seq<T>)
    requires |vs| > 0
    ensures [vs[0]] + (vs[1..] + xs) == vs + xs
  {
    assert [vs[0]] + vs[1..] == vs;
  }

  lemma {:induction false} BlankPairsHaveNoFlag(vs: seq<string>, t: string)
    requires t != ""
    ensures t !in BlankPairs(vs)
  {
    if vs != [] {
      BlankPairsHaveNoFlag(vs[1..], t);
    }
  }

  lemma {:induction false} BlankPairsLength(vs: seq<string>)
    ensures |BlankPairs(vs)| == 2 * |vs|
    ensures forall k :: 0 <= k < |BlankPairs(vs)| ==> BlankPairs(vs)[k] == ""
  {
    if vs != [] {
      BlankPairsLength(vs[1..]);
    }
  }

  /** Without "-flag" in the tokens, every scalar parse returns its default and consumes nothing. */
  lemma AbsentFlagGivesDefault(s: seq<string>, flag: string, di: Int32, dl: Int64, ds: string, df: FilePath,
                                dh: Handler, split: string -> seq<string>)
    requires FlagToken(flag) !in s
    ensures IntOption(s, flag, di) == Parse(Ok(di), s)
    ensures LongOption(s, flag, dl) == Parse(Ok(dl), s)
    ensures StringOption(s, flag, ds) == Parse(Ok(ds), s)
    ensures FileOption(s, flag, df) == Parse(Ok(df), s)
    ensures HandlerOption(s, flag, dh, split) == Parse(Ok(dh), s)
  {
  }

  /**
   * add(List, String, int) then parse(String[], String, int): the value comes
   * back, whatever other options precede or follow the pair.
   */
  lemma IntRoundTrip(pre: seq<string>, flag: string, v: Int32, defValue: Int32, post: seq<string>)
    requires FlagToken(flag) !in pre
    ensures IntOption(pre + [FlagToken(flag), IntToString(v as int)] + post, flag, defValue)
         == Parse(Ok(v), pre + ["", ""] + post)
  {
    TakePair(pre, flag, IntToString(v as int), post);
    ParseDecimalOfIntToString(v as int, -0x8000_0000, 0x7fff_ffff);
  }

  /** add(List, String, long) then parse(String[], String, long) gives the value back. */
  lemma LongRoundTrip(pre: seq<string>, flag: string, v: Int64, defValue: Int64, post: seq<string>)
    requires FlagToken(flag) !in pre
    ensures LongOption(pre + [FlagToken(flag), IntToString(v as int)] + post, flag, defValue)
         == Parse(Ok(v), pre + ["", ""] + post)
  {
    TakePair(pre, flag, IntToString(v as int), post);
    ParseDecimalOfIntToString(v as int, -0x8000_0000_0000_0000, 0x7fff_ffff_ffff_ffff);
  }

  /**
   * add(List, String, String) then parse(String[], String, String): a
   * non-empty value comes back, an empty one reads as the default.
   */
  lemma StringRoundTrip(pre: seq<string>, flag: string, v: string, defValue: string, post: seq<string>)
    requires FlagToken(flag) !in pre
    ensures StringOption(pre + [FlagToken(flag), v] + post, flag, defValue)
         == Parse(Ok(if v == "" then defValue else v), pre + ["", ""] + post)
  {
    TakePair(pre, flag, v, post);
  }

  /** add(List, String, File) then parse(String[], String, File): the path comes back unless it is empty. */
  lemma FileRoundTrip(pre: seq<string>, flag: string, f: FilePath, defValue: FilePath, post: seq<string>)
    requires FlagToken(flag) !in pre
    ensures FileOption(pre + [FlagToken(flag), f.path] + post, flag, defValue)
         == Parse(Ok(if f.path == "" then defValue else f), pre + ["", ""] + post)
  {
    TakePair(pre, flag, f.path, post);
  }

  /**
   * parse(String[], String, OptionHandler) over a "-flag"/value pair: an empty
   * value reads as the default, any other is the handler forCommandLine builds
   * from it (or its exception); either way exactly that pair is consumed.
   */
  lemma HandlerPair(pre: seq<string>, flag: string, v: string, defValue: Handler, split: string -> seq<string>, post: seq<string>)
    requires FlagToken(flag) !in pre
    ensures HandlerOption(pre + [FlagToken(flag), v] + post, flag, defValue, split)
         == Parse(if v == "" then Ok(defValue) else ForCommandLineSpec(split, v), pre + ["", ""] + post)
  {
    TakePair(pre, flag, v, post);
  }

  /** A non-empty value that is not decimal text makes the int and long parses raise NumberFormat. */
  lemma NonDecimalIsRejected(pre: seq<string>, flag: string, v: string, di: Int32, dl: Int64, post: seq<string>)
    requires FlagToken(flag) !in pre
    requires v != "" && !IsDecimal(v)
    ensures IntOption(pre + [FlagToken(flag), v] + post, flag, di) == Parse(Err(NumberFormat(v)), pre + ["", ""] + post)
    ensures LongOption(pre + [FlagToken(flag), v] + post, flag, dl) == Parse(Err(NumberFormat(v)), pre + ["", ""] + post)
  {
    TakePair(pre, flag, v, post);
  }

  /**
   * Non-interference: with pairs for two different flags in one sequence,
   * parsing f then g and parsing g then f read the same values and leave the
   * same tokens behind.
   */
  lemma DistinctFlagsCommute(pre: seq<string>, f: string, a: string, mid: seq<string>, g: string, b: string, post: seq<string>)
    requires FlagToken(f) !in pre + mid
    requires FlagToken(g) !in pre + [FlagToken(f), a] + mid
    ensures var s := pre + [FlagToken(f), a] + mid + [FlagToken(g), b] + post;
            var both := pre + ["", ""] + mid + ["", ""] + post;
            Take(s, f).result == Ok(a) && Take(Take(s, f).rest, g) == Parse(Ok(b), both) &&
            Take(s, g).result == Ok(b) && Take(Take(s, g).rest, f) == Parse(Ok(a), both)
  {
    var F, G := FlagToken(f), FlagToken(g);
    assert F !in pre && F !in mid;
    assert G !in pre && G !in mid && G != F && G != a;
    // f first
    Shift(pre, [F, a], mid, [G, b], post);
    TakePair(pre, f, a, mid + [G, b] + post);
    Shift(pre, ["", ""], mid, [G, b], post);
    assert G !in pre + ["", ""] + mid;
    TakePair(pre + ["", ""] + mid, g, b, post);
    // g first
    assert G !in pre + [F, a] + mid;
    TakePair(pre + [F, a] + mid, g, b, post);
    Shift(pre, [F, a], mid, ["", ""], post);
    TakePair(pre, f, a, mid + ["", ""] + post);
    Shift(pre, ["", ""], mid, ["", ""], post);
  }

  /**
   * Consumption is scoped to the flag: two identical lookups over two
   * occurrences read the first value and then the second, and a third one
   * finds nothing.
   */
  lemma RepeatedLookup(pre: seq<string>, flag: string, a: string, mid: seq<string>, b: string, post: seq<string>)
    requires FlagToken(flag) !in pre + mid + post
    ensures var s := pre + [FlagToken(flag), a] + mid + [FlagToken(flag), b] + post;
            var once := Take(s, flag);
            var twice := Take(once.rest, flag);
            once.result == Ok(a) && twice.result == Ok(b) &&
            Take(twice.rest, flag) == Parse(Ok(""), pre + ["", ""] + mid + ["", ""] + post)
  {
    var F := FlagToken(flag);
    assert F !in pre && F !in mid && F !in post;
    var s := pre + [F, a] + mid + [F, b] + post;
    assert s == pre + [F, a] + (mid + [F, b] + post);
    TakePair(pre, flag, a, mid + [F, b] + post);
    var afterFirst := pre + ["", ""] + mid + [F, b] + post;
    assert pre + ["", ""] + (mid + [F, b] + post) == afterFirst;
    assert afterFirst == (pre + ["", ""] + mid) + [F, b] + post;
    TakePair(pre + ["", ""] + mid, flag, b, post);
    var done := pre + ["", ""] + mid + ["", ""] + post;
    assert F !in done;
  }

  /** One round of the String-array loop over a leading pair. */
  lemma CollectStep(pre: seq<string>, flag: string, v: string, rest: seq<string>)
    requires FlagToken(flag) !in pre
    ensures Collect(pre + [FlagToken(flag), v] + rest, flag) == Prepend([v], Collect(pre + ["", ""] + rest, flag))
  {
    TakePair(pre, flag, v, rest);
    assert (pre + [FlagToken(flag), v] + rest)[|pre|] == FlagToken(flag);
  }

  /** One round of the OptionHandler-array loop over a leading pair with a non-empty value. */
  lemma CollectNonEmptyStep(pre: seq<string>, flag: string, v: string, rest: seq<string>)
    requires FlagToken(flag) !in pre && v != ""
    ensures CollectNonEmpty(pre + [FlagToken(flag), v] + rest, flag)
         == Prepend([v], CollectNonEmpty(pre + ["", ""] + rest, flag))
  {
    TakePair(pre, flag, v, rest);
  }

  /** Peels the first pair off pre + Pairs(flag, vs) + post. */
  lemma PairsSplit(pre: seq<string>, flag: string, vs: seq<string>, post: seq<string>)
    requires vs != []
    ensures pre + Pairs(flag, vs) + post == pre + [FlagToken(flag), vs[0]] + (Pairs(flag, vs[1..]) + post)
  {
    var later := Pairs(flag, vs[1..]);
    assert Pairs(flag, vs) == [FlagToken(flag), vs[0]] + later;
    Regroup(pre, [FlagToken(flag), vs[0]] + later, post);
    Regroup([FlagToken(flag), vs[0]], later, post);
    Regroup(pre, [FlagToken(flag), vs[0]], later + post);
  }

  /** Moves a consumed pair from the remainder into the prefix. */
  lemma BlankedPrefix(pre: seq<string>, v: string, ws: seq<string>, later: seq<string>, post: seq<string>)
    ensures pre + ["", ""] + (later + post) == (pre + ["", ""]) + later + post
    ensures (pre + ["", ""]) + BlankPairs(ws) + post == pre + BlankPairs([v] + ws) + post
  {
    Regroup(pre + ["", ""], later, post);
    assert ([v] + ws)[1..] == ws;
    Regroup(pre, ["", ""], BlankPairs(ws));
  }

  /** The inductive step of CollectPairs: one more leading pair adds its value in front. */
  lemma CollectPairsStep(pre: seq<string>, flag: string, v: string, ws: seq<string>, post: seq<string>)
    requires FlagToken(flag) !in pre
    requires Collect(pre + ["", ""] + Pairs(flag, ws) + post, flag) == Parse(Ok(ws), pre + ["", ""] + BlankPairs(ws) + post)
    ensures Collect(pre + Pairs(flag, [v] + ws) + post, flag) == Parse(Ok([v] + ws), pre + BlankPairs([v] + ws) + post)
  {
    var later := Pairs(flag, ws);
    PairsSplit(pre, flag, [v] + ws, post);
    assert ([v] + ws)[1..] == ws;
    CollectStep(pre, flag, v, later + post);
    BlankedPrefix(pre, v, ws, later, post);
  }

  /**
   * parse(String[], String) over consecutive pairs returns their values in
   * left-to-right order, including empty ones, and consumes exactly those pairs.
   */
  lemma {:induction false} CollectPairs(pre: seq<string>, flag: string, vs: seq<string>, post: seq<string>)
    requires FlagToken(flag) !in pre && FlagToken(flag) !in post
    ensures Collect(pre + Pairs(flag, vs) + post, flag) == Parse(Ok(vs), pre + BlankPairs(vs) + post)
    decreases |vs|
  {
    if vs == [] {
      assert pre + Pairs(flag, vs) + post == pre + BlankPairs(vs) + post == pre + post;
      assert FlagToken(flag) !in pre + post;
    } else {
      var v, ws := vs[0], vs[1..];
      assert vs == [v] + ws;
      assert FlagToken(flag) !in pre + ["", ""];
      CollectPairs(pre + ["", ""], flag, ws, post);
      CollectPairsStep(pre, flag, v, ws, post);
    }
  }

  /**
   * An independent reading of parse(String[], String): scanning left to right,
   * the token after each "-flag" is the next value and the scan resumes behind
   * it; a "-flag" in last position raises NoValueGiven.
   */
  function Values(s: seq<string>, flag: string): Result<seq<string>, Exception>
    decreases |s|
  {
    var i := FirstIndex(s, FlagToken(flag));
    if i < 0 then Ok([])
    else if i + 1 == |s| then Err(NoValueGiven(flag))
    else match Values(s[i + 2..], flag)
      case Ok(vs) => Ok([s[i + 1]] + vs)
      case Err(e) => Err(e)
  }

  /**
   * The String-array loop reads exactly the values of the left-to-right scan,
   * for occurrences anywhere in the tokens, behind any prefix without "-flag".
   */
  lemma {:induction false} CollectValuesAfter(pre: seq<string>, s: seq<string>, flag: string)
    requires FlagToken(flag) !in pre
    ensures Collect(pre + s, flag).result == Values(s, flag)
    decreases |s|
  {
    var t := FlagToken(flag);
    if t in s {
      var i := FirstIndex(s, t);
      var before := pre + s[..i];
      assert t !in before;
      if i + 1 < |s| {
        var rest := s[i + 2..];
        assert pre + s == before + [t, s[i + 1]] + rest;
        TakePair(before, flag, s[i + 1], rest);
        assert t != "";
        CollectValuesAfter(before + ["", ""], rest, flag);
      } else {
        assert pre + s == before + [t] + [];
        FirstIndexAfter(before, t, []);
      }
    } else {
      assert t !in pre + s;
    }
  }

  /** With nothing in front, the String-array parse yields the scan's values. */
  lemma CollectIsValues(s: seq<string>, flag: string)
    ensures Collect(s, flag).result == Values(s, flag)
  {
    assert [] + s == s;
    CollectValuesAfter([], s, flag);
  }

  /** The inductive step of CollectNonEmptyPairs. */
  lemma CollectNonEmptyPairsStep(pre: seq<string>, flag: string, v: string, ws: seq<string>, tail: seq<string>)
    requires FlagToken(flag) !in pre && v != ""
    requires CollectNonEmpty(pre + ["", ""] + Pairs(flag, ws) + tail, flag)
          == Prepend(ws, CollectNonEmpty(pre + ["", ""] + BlankPairs(ws) + tail, flag))
    ensures CollectNonEmpty(pre + Pairs(flag, [v] + ws) + tail, flag)
         == Prepend([v] + ws, CollectNonEmpty(pre + BlankPairs([v] + ws) + tail, flag))
  {
    var later := Pairs(flag, ws);
    PairsSplit(pre, flag, [v] + ws, tail);
    assert ([v] + ws)[1..] == ws;
    CollectNonEmptyStep(pre, flag, v, later + tail);
    BlankedPrefix(pre, v, ws, later, tail);
    var c := CollectNonEmpty(pre + BlankPairs([v] + ws) + tail, flag);
    if c.result.Ok? {
      Regroup([v], ws, c.result.value);
    }
  }

  /**
   * The gathering loop of the OptionHandler-array parse collects the non-empty
   * values of leading pairs, in order, consuming each pair.
   */
  lemma {:induction false} CollectNonEmptyPairs(pre: seq<string>, flag: string, vs: seq<string>, tail: seq<string>)
    requires FlagToken(flag) !in pre
    requires forall i :: 0 <= i < |vs| ==> vs[i] != ""
    ensures CollectNonEmpty(pre + Pairs(flag, vs) + tail, flag)
         == Prepend(vs, CollectNonEmpty(pre + BlankPairs(vs) + tail, flag))
    decreases |vs|
  {
    if vs == [] {
      assert pre + Pairs(flag, vs) + tail == pre + BlankPairs(vs) + tail;
      var c := CollectNonEmpty(pre + BlankPairs(vs) + tail, flag);
      assert c.result.Ok? ==> [] + c.result.value == c.result.value;
    } else {
      var v, ws := vs[0], vs[1..];
      assert vs == [v] + ws;
      assert FlagToken(flag) !in pre + ["", ""];
      CollectNonEmptyPairs(pre + ["", ""], flag, ws, tail);
      CollectNonEmptyPairsStep(pre, flag, v, ws, tail);
    }
  }

  /**
   * The OptionHandler-array parse stops at the first empty value: the pairs
   * after it stay in the tokens, unconsumed.
   */
  lemma StopsAtFirstEmptyValue(pre: seq<string>, flag: string, vs: seq<string>, ws: seq<string>, post: seq<string>)
    requires FlagToken(flag) !in pre
    requires forall i :: 0 <= i < |vs| ==> vs[i] != ""
    ensures CollectNonEmpty(pre + Pairs(flag, vs) + (Pairs(flag, [""] + ws) + post), flag)
         == Parse(Ok(vs), pre + BlankPairs(vs) + ["", ""] + (Pairs(flag, ws) + post))
  {
    CollectNonEmptyPairs(pre, flag, vs, Pairs(flag, [""] + ws) + post);
    BlankPairsHaveNoFlag(vs, FlagToken(flag));
    EmptyValueStops(pre + BlankPairs(vs), flag, ws, post);
    assert vs + [] == vs;
  }

  /** A pair with an empty value ends the gathering loop; only that pair is consumed. */
  lemma EmptyValueStops(pre: seq<string>, flag: string, ws: seq<string>, post: seq<string>)
    requires FlagToken(flag) !in pre
    ensures CollectNonEmpty(pre + (Pairs(flag, [""] + ws) + post), flag)
         == Parse(Ok([]), pre + ["", ""] + (Pairs(flag, ws) + post))
  {
    var F := FlagToken(flag);
    var rest := Pairs(flag, ws) + post;
    assert Pairs(flag, [""] + ws) == [F, ""] + Pairs(flag, ws) by {
      assert ([""] + ws)[1..] == ws;
    }
    calc {
      pre + (Pairs(flag, [""] + ws) + post);
      pre + ([F, ""] + Pairs(flag, ws) + post);
      { Regroup([F, ""], Pairs(flag, ws), post); }
      pre + ([F, ""] + rest);
      { Regroup(pre, [F, ""], rest); }
      pre + [F, ""] + rest;
    }
    TakePair(pre, flag, "", rest);
  }

  /**
   * The OptionHandler-array parse over pairs with non-empty values: the
   * default when there are none, otherwise one handler per value, in order.
   */
  lemma HandlersFromPairs(pre: seq<string>, flag: string, vs: seq<string>, post: seq<string>,
                          defValue: seq<Handler>, split: string -> seq<string>)
    requires FlagToken(flag) !in pre && FlagToken(flag) !in post
    requires forall i :: 0 <= i < |vs| ==> vs[i] != ""
    ensures HandlersOption(pre + Pairs(flag, vs) + post, flag, defValue, split)
         == Parse(if vs == [] then Ok(defValue) else HandlersFor(split, vs), pre + BlankPairs(vs) + post)
  {
    CollectNonEmptyPairs(pre, flag, vs, post);
    var rest := pre + BlankPairs(vs) + post;
    BlankPairsHaveNoFlag(vs, FlagToken(flag));
    assert FlagToken(flag) !in rest;
    assert vs + [] == vs;
  }

  /** forCommandLine and fromCommandLine agree on every command line that is not blank. */
  lemma ForAndFromCommandLineAgree(split: string -> seq<string>, cmdline: string)
    requires !IsBlank(cmdline)
    ensures ForCommandLineSpec(split, cmdline) == FromCommandLineSpec(split, cmdline)
  {
  }

  // ---------------------------------------------------------------------------
  // The parse overloads, on the caller's token array
  // ---------------------------------------------------------------------------

  /** parse(String[], String, int): consumes the pair and converts its value with Integer.parseInt. */
  method ParseInt(options: array<string>, flag: string, defValue: Int32) returns (r: Result<Int32, Exception>)
    modifies options
    ensures Parse(r, options[..]) == IntOption(old(options[..]), flag, defValue)
  {
    var value := GetOption(flag, options);
    if value.Err? {
      return Err(value.error);
    }
    if value.value == "" {
      return Ok(defValue);
    }
    return IntValue(value.value);
  }

  /** parse(String[], String, long): as ParseInt, with Long.parseLong. */
  method ParseLong(options: array<string>, flag: string, defValue: Int64) returns (r: Result<Int64, Exception>)
    modifies options
    ensures Parse(r, options[..]) == LongOption(old(options[..]), flag, defValue)
  {
    var value := GetOption(flag, options);
    if value.Err? {
      return Err(value.error);
    }
    if value.value == "" {
      return Ok(defValue);
    }
    return LongValue(value.value);
  }

  /** parse(String[], String, String) */
  method ParseString(options: array<string>, flag: string, defValue: string) returns (r: Result<string, Exception>)
    modifies options
    ensures Parse(r, options[..]) == StringOption(old(options[..]), flag, defValue)
  {
    var value := GetOption(flag, options);
    if value.Err? {
      return Err(value.error);
    }
    if value.value == "" {
      return Ok(defValue);
    }
    return Ok(value.value);
  }

  /** parse(String[], String, File) */
  method ParseFile(options: array<string>, flag: string, defValue: FilePath) returns (r: Result<FilePath, Exception>)
    modifies options
    ensures Parse(r, options[..]) == FileOption(old(options[..]), flag, defValue)
  {
    var value := GetOption(flag, options);
    if value.Err? {
      return Err(value.error);
    }
    if value.value == "" {
      return Ok(defValue);
    }
    return Ok(FilePath(value.value));
  }

  /** parse(String[], String, OptionHandler): a non-empty value is a nested command line. */
  method ParseHandler(options: array<string>, flag: string, defValue: Handler, split: string -> seq<string>)
    returns (r: Result<Handler, Exception>)
    modifies options
    ensures Parse(r, options[..]) == HandlerOption(old(options[..]), flag, defValue, split)
  {
    var value := GetOption(flag, options);
    if value.Err? {
      return Err(value.error);
    }
    if value.value == "" {
      return Ok(defValue);
    }
    r := ForCommandLine(split, value.value);
  }

  lemma PrependNothing<T>(p: Parse<seq<T>>)
    ensures Prepend([], p) == p
  {
    if p.result.Ok? {
      assert [] + p.result.value == p.result.value;
    }
  }

  lemma PrependPrepend<T>(vs: seq<T>, ws: seq<T>, p: Parse<seq<T>>)
    ensures Prepend(vs, Prepend(ws, p)) == Prepend(vs + ws, p)
  {
    if p.result.Ok? {
      Regroup(vs, ws, p.result.value);
    }
  }

  /**
   * parse(String[], String): while getOptionPos still finds "-flag", the
   * next getOption result is appended.
   */
  method ParseStrings(options: array<string>, flag: string) returns (r: Result<seq<string>, Exception>)
    modifies options
    ensures Parse(r, options[..]) == Collect(old(options[..]), flag)
  {
    var result: seq<string> := [];
    PrependNothing(Collect(options[..], flag));
    var pos := GetOptionPos(flag, options);
    while pos > -1
      invariant pos == FirstIndex(options[..], FlagToken(flag))
      invariant Prepend(result, Collect(options[..], flag)) == Collect(old(options[..]), flag)
      decreases Count(options[..], FlagToken(flag))
    {
      ghost var before := options[..];
      var value := GetOption(flag, options);
      if value.Err? {
        return Err(value.error);
      }
      TakeConsumes(before, flag);
      PrependPrepend(result, [value.value], Collect(options[..], flag));
      result := result + [value.value];
      pos := GetOptionPos(flag, options);
    }
    assert result + [] == result;
    return Ok(result);
  }

  /** hs in front of a conversion result; a failure passes through. */
  function PrependHandlers(hs: seq<Handler>, r: Result<seq<Handler>, Exception>): Result<seq<Handler>, Exception> {
    match r
    case Ok(rest) => Ok(hs + rest)
    case Err(e) => Err(e)
  }

  /**
   * forCommandLine applied to the first i values succeeded with hs: the whole
   * conversion is hs followed by the conversion of the rest.
   */
  lemma {:induction false} HandlersForPrefix(split: string -> seq<string>, vs: seq<string>, hs: seq<Handler>, i: nat)
    requires i <= |vs| && |hs| == i
    requires forall j :: 0 <= j < i ==> ForCommandLineSpec(split, vs[j]) == Ok(hs[j])
    ensures HandlersFor(split, vs) == PrependHandlers(hs, HandlersFor(split, vs[i..]))
    decreases i
  {
    var tail := HandlersFor(split, vs[i..]);
    if i > 0 {
      var ws := vs[1..];
      assert forall j :: 0 <= j < i - 1 ==> ws[j] == vs[j + 1] && hs[1..][j] == hs[j + 1];
      HandlersForPrefix(split, ws, hs[1..], i - 1);
      assert ws[i - 1..] == vs[i..];
      assert ForCommandLineSpec(split, vs[0]) == Ok(hs[0]);
      assert HandlersFor(split, vs) == PrependHandlers([hs[0]], HandlersFor(split, ws));
      if tail.Ok? {
        Regroup([hs[0]], hs[1..], tail.value);
        assert [hs[0]] + hs[1..] == hs;
      }
    } else {
      assert vs[0..] == vs;
      if tail.Ok? {
        assert hs + tail.value == tail.value;
      }
    }
  }

  /** The conversion loop of the OptionHandler-array parse: forCommandLine on each value, in order. */
  method HandlersFromValues(split: string -> seq<string>, values: seq<string>) returns (r: Result<seq<Handler>, Exception>)
    ensures r == HandlersFor(split, values)
  {
    var handlers: seq<Handler> := [];
    var i := 0;
    while i < |values|
      invariant 0 <= i <= |values| && |handlers| == i
      invariant forall j :: 0 <= j < i ==> ForCommandLineSpec(split, values[j]) == Ok(handlers[j])
    {
      var h := ForCommandLine(split, values[i]);
      if h.Err? {
        HandlersForPrefix(split, values, handlers, i);
        assert values[i..][0] == values[i];
        return Err(h.error);
      }
      handlers := handlers + [h.value];
      i := i + 1;
    }
    HandlersForPrefix(split, values, handlers, i);
    assert handlers + [] == handlers;
    return Ok(handlers);
  }

  /**
   * parse(String[], String, OptionHandler[], Class): gathers values until the
   * lookup returns "", returns the default when none was gathered, otherwise
   * builds one handler per value with forCommandLine.
   */
  method ParseHandlers(options: array<string>, flag: string, defValue: seq<Handler>, split: string -> seq<string>)
    returns (r: Result<seq<Handler>, Exception>)
    modifies options
    ensures Parse(r, options[..]) == HandlersOption(old(options[..]), flag, defValue, split)
  {
    var values: seq<string> := [];
    PrependNothing(CollectNonEmpty(options[..], flag));
    while true
      invariant Prepend(values, CollectNonEmpty(options[..], flag)) == CollectNonEmpty(old(options[..]), flag)
      decreases Count(options[..], FlagToken(flag))
    {
      ghost var before := options[..];
      var value := GetOption(flag, options);
      if value.Err? {
        return Err(value.error);
      }
      if value.value == "" {
        break;
      }
      TakeConsumes(before, flag);
      PrependPrepend(values, [value.value], CollectNonEmpty(options[..], flag));
      values := values + [value.value];
    }
    assert values + [] == values;
    if |values| == 0 {
      return Ok(defValue);
    }
    r := HandlersFromValues(split, values);
  }

  /**
   * parse(String[], String, Class): gathers every value, then constructs one
   * element per value; a construction that fails leaves that slot null.
   */
  method ParseArray<T>(options: array<string>, flag: string, construct: string -> Option<T>)
    returns (r: Result<seq<Option<T>>, Exception>)
    modifies options
    ensures Parse(r, options[..]) == ArrayOption(old(options[..]), flag, construct)
  {
    var list := ParseStrings(options, flag);
    if list.Err? {
      return Err(list.error);
    }
    var vs := list.value;
    var result: seq<Option<T>> := [];
    for i := 0 to |vs|
      invariant |result| == i
      invariant forall j :: 0 <= j < i ==> result[j] == construct(vs[j])
    {
      result := result + [construct(vs[i])];
    }
    assert result == seq(|vs|, i requires 0 <= i < |vs| => construct(vs[i]));
    return Ok(result);
  }

  /**
   * fromCommandLine: splits the command line, takes slot 0 as the class name
   * and blanks that slot before handing the tokens over.
   */
  method FromCommandLine(split: string -> seq<string>, cmdline: string) returns (r: Result<Handler, Exception>)
    ensures r == FromCommandLineSpec(split, cmdline)
    ensures r.Ok? ==> |r.value.options| == |split(cmdline)| && r.value.options[0] == ""
  {
    var tokens := split(cmdline);
    if |tokens| == 0 {
      return Err(IndexOutOfBounds);
    }
    var options := new string[|tokens|](i requires 0 <= i < |tokens| => tokens[i]);
    var classname := options[0];
    options[0] := "";
    assert options[..] == [""] + tokens[1..];
    return Ok(Handler(classname, options[..]));
  }

  /** forCommandLine: fromCommandLine behind a check that the command line is not blank. */
  method ForCommandLine(split: string -> seq<string>, cmdline: string) returns (r: Result<Handler, Exception>)
    ensures r == ForCommandLineSpec(split, cmdline)
    ensures IsBlank(cmdline) <==> r == Err(IllegalArgument("Empty commandline supplied!"))
  {
    if IsBlank(cmdline) {
      return Err(IllegalArgument("Empty commandline supplied!"));
    }
    r := FromCommandLine(split, cmdline);
  }

  // ---------------------------------------------------------------------------
  // The add overloads, on the caller's List<String> and Vector<Option>
  // ---------------------------------------------------------------------------

  lemma {:induction false} PairsSnoc(flag: string, vs: seq<string>, v: string)
    ensures Pairs(flag, vs + [v]) == Pairs(flag, vs) + [FlagToken(flag), v]
    decreases |vs|
  {
    if vs == [] {
      assert [v][1..] == [];
    } else {
      assert (vs + [v])[1..] == vs[1..] + [v];
      PairsSnoc(flag, vs[1..], v);
      Regroup([FlagToken(flag), vs[0]], Pairs(flag, vs[1..]), [FlagToken(flag), v]);
    }
  }

  /** The List<String> an OptionHandler's getOptions builds up. */
  class TokenList {
    var tokens: seq<string>

    constructor ()
      ensures tokens == []
    {
      tokens := [];
    }

    /** add(List, String, int) */
    method AddInt(flag: string, value: Int32)
      modifies this
      ensures tokens == old(tokens) + [FlagToken(flag), IntToString(value as int)]
    {
      tokens := tokens + [FlagToken(flag)];
      tokens := tokens + [IntToString(value as int)];
    }

    /** add(List, String, long) */
    method AddLong(flag: string, value: Int64)
      modifies this
      ensures tokens == old(tokens) + [FlagToken(flag), IntToString(value as int)]
    {
      tokens := tokens + [FlagToken(flag)];
      tokens := tokens + [IntToString(value as int)];
    }

    /** add(List, String, String) */
    method AddString(flag: string, value: string)
      modifies this
      ensures tokens == old(tokens) + [FlagToken(flag), value]
    {
      tokens := tokens + [FlagToken(flag)];
      tokens := tokens + [value];
    }

    /** add(List, String, boolean): only a true value writes the flag. */
    method AddBool(flag: string, value: bool)
      modifies this
      ensures tokens == old(tokens) + (if value then [FlagToken(flag)] else [])
    {
      if value {
        tokens := tokens + [FlagToken(flag)];
      }
    }

    /** add(List, String, File): the path text. */
    method AddFile(flag: string, value: FilePath)
      modifies this
      ensures tokens == old(tokens) + [FlagToken(flag), value.path]
    {
      tokens := tokens + [FlagToken(flag)];
      tokens := tokens + [value.path];
    }

    /** add(List, String, OptionHandler): the handler's command line, as render gives it. */
    method AddHandler<T>(flag: string, value: T, render: T -> string)
      modifies this
      ensures tokens == old(tokens) + [FlagToken(flag), render(value)]
    {
      tokens := tokens + [FlagToken(flag)];
      tokens := tokens + [render(value)];
    }

    /**
     * add(List, String, Object): one "-flag"/command-line pair per array
     * element; anything but an array raises IllegalArgument and adds nothing.
     */
    method AddArray<T>(flag: string, value: Value<T>, render: T -> string) returns (r: Result<(), Exception>)
      modifies this
      ensures value.NotArray? ==> r == Err(IllegalArgument("Value is not an array!")) && tokens == old(tokens)
      ensures value.ArrayValue? ==> r == Ok(()) && tokens == old(tokens) + Pairs(flag, Lines(value.elements, render))
    {
      if value.NotArray? {
        return Err(IllegalArgument("Value is not an array!"));
      }
      var elements := value.elements;
      for i := 0 to |elements|
        invariant tokens == old(tokens) + Pairs(flag, Lines(elements[..i], render))
      {
        LinesSnoc(elements, render, i);
        PairsSnoc(flag, Lines(elements[..i], render), render(elements[i]));
        tokens := tokens + [FlagToken(flag)];
        tokens := tokens + [render(elements[i])];
      }
      assert elements[..|elements|] == elements;
      return Ok(());
    }

    /** add(List, String[]): appends the superclass's options unchanged. */
    method AddAll(superOptions: array<string>)
      modifies this
      ensures tokens == old(tokens) + superOptions[..]
    {
      tokens := tokens + superOptions[..];
    }

    /** toArray(List): a fresh array holding the tokens in order. */
    method ToArray() returns (a: array<string>)
      ensures fresh(a) && a[..] == tokens
    {
      a := new string[|tokens|](i requires 0 <= i < |tokens| reads this => tokens[i]);
    }
  }

  /** addFlag: the help entry of an option without argument. */
  function FlagEntry(text: string, flag: string): HelpEntry {
    HelpEntry("\t" + text, flag, 0, FlagToken(flag))
  }

  /** addOption: the help entry of an option with a value, mentioning its default. */
  function OptionEntry(text: string, defValue: string, option: string): HelpEntry {
    HelpEntry("\t" + text + "\n\t(default: " + defValue + ")", option, 0, FlagToken(option) + " <value>")
  }

  /**
   * The help entries advertise exactly the token the parse methods look for:
   * a flag's synopsis is "-flag", an option's synopsis starts with "-option"
   * followed by a blank, and its description ends with the default value.
   */
  lemma HelpNamesTheParsedToken(text: string, defValue: string, name: string)
    ensures FlagEntry(text, name).synopsis == FlagToken(name)
    ensures var e := OptionEntry(text, defValue, name);
            e.name == name &&
            |e.synopsis| > |FlagToken(name)| &&
            e.synopsis[..|FlagToken(name)|] == FlagToken(name) && e.synopsis[|FlagToken(name)|] == ' ' &&
            e.description[|e.description| - |defValue| - 1..] == defValue + ")"
  {
  }

  /** The Vector<Option> an OptionHandler's listOptions builds up. */
  class HelpList {
    var entries: seq<HelpEntry>

    constructor ()
      ensures entries == []
    {
      entries := [];
    }

    /** addFlag(Vector, String, String) */
    method AddFlag(text: string, flag: string)
      modifies this
      ensures entries == old(entries) + [FlagEntry(text, flag)]
    {
      entries := entries + [FlagEntry(text, flag)];
    }

    /** addOption(Vector, String, String, String) */
    method AddOption(text: string, defValue: string, option: string)
      modifies this
      ensures entries == old(entries) + [OptionEntry(text, defValue, option)]
    {
      entries := entries + [OptionEntry(text, defValue, option)];
    }

    /** add(Vector, Enumeration): appends every remaining element of the enumeration, in order. */
    method AddAll(superOptions: seq<HelpEntry>)
      modifies this
      ensures entries == old(entries) + superOptions
    {
      var i := 0;
      while i < |superOptions|
        invariant 0 <= i <= |superOptions|
        invariant entries == old(entries) + superOptions[..i]
      {
        assert superOptions[..i + 1] == superOptions[..i] + [superOptions[i]];
        entries := entries + [superOptions[i]];
        i := i + 1;
      }
      assert superOptions[..i] == superOptions;
    }
  }
}
