/**
 * Form encoding of names as done by Python's `urllib.parse.quote_plus`
 * with its default arguments: the UTF-8 bytes of the text, the unreserved
 * characters of section 2.3 of RFC 3986 kept, a space written `+`, and
 * every other byte percent-encoded (section 2.1 of RFC 3986) with
 * upper-case hexadecimal digits.
 */
module FormEncoding {
  import opened Common

  newtype byte = x: int | 0 <= x < 256

  /** The UTF-8 encoding of one character. */
  function Utf8(c: char): (bs: seq<byte>)
    ensures 1 <= |bs| <= 4
    ensures (c as int < 0x80) <==> |bs| == 1
    ensures c as int < 0x80 ==> bs[0] as int == c as int
    ensures |bs| > 1 ==> forall i :: 0 <= i < |bs| ==> bs[i] >= 0x80
  {
    var n := c as int;
    if n < 0x80 then [n as byte]
    else if n < 0x800 then [(0xC0 + n / 64) as byte, (0x80 + n % 64) as byte]
    else if n < 0x10000 then [(0xE0 + n / 4096) as byte, (0x80 + n / 64 % 64) as byte, (0x80 + n % 64) as byte]
    else [(0xF0 + n / 262144 % 8) as byte, (0x80 + n / 4096 % 64) as byte, (0x80 + n / 64 % 64) as byte, (0x80 + n % 64) as byte]
  }

  /** `s.encode("utf-8")` */
  function Encode(s: string): (bs: seq<byte>)
    ensures |bs| >= |s|
  {
    if s == [] then [] else Utf8(s[0]) + Encode(s[1..])
  }

  /** Letters, digits and `-._~`: the bytes written as themselves. */
  predicate Unreserved(b: byte)
  {
    || 'A' as int <= b as int <= 'Z' as int
    || 'a' as int <= b as int <= 'z' as int
    || '0' as int <= b as int <= '9' as int
    || b as int == '-' as int || b as int == '.' as int || b as int == '_' as int || b as int == '~' as int
  }

  /** The upper-case hexadecimal digit of `d`. */
  function HexDigit(d: int): (c: char)
    requires 0 <= d < 16
  {
    if d < 10 then ('0' as int + d) as char else ('A' as int + d - 10) as char
  }

  /** The value of a hexadecimal digit of either case. */
  function HexValue(c: char): (v: Option<int>)
    ensures v.Some? ==> 0 <= v.value < 16
    ensures forall d :: 0 <= d < 16 ==> (c == HexDigit(d) ==> v == Some(d))
  {
    if '0' <= c <= '9' then Some(c as int - '0' as int)
    else if 'A' <= c <= 'F' then Some(c as int - 'A' as int + 10)
    else if 'a' <= c <= 'f' then Some(c as int - 'a' as int + 10)
    else None
  }

  /** The characters a quoted text is made of. */
  predicate Safe(c: char)
  {
    (c as int < 256 && Unreserved(c as int as byte)) || c == '+' || c == '%' || ('A' <= c <= 'F')
  }

  function QuoteByte(b: byte): (s: string)
    ensures 1 <= |s| <= 3
    ensures forall i :: 0 <= i < |s| ==> Safe(s[i])
  {
    if Unreserved(b) then [b as int as char]
    else if b as int == ' ' as int then "+"
    else ['%', HexDigit(b as int / 16), HexDigit(b as int % 16)]
  }

  function QuoteBytes(bs: seq<byte>): (s: string)
    ensures forall i :: 0 <= i < |s| ==> Safe(s[i])
  {
    if bs == [] then "" else QuoteByte(bs[0]) + QuoteBytes(bs[1..])
  }

  /** `quote_plus(s)` */
  function QuotePlus(s: string): (q: string)
    ensures forall i :: 0 <= i < |q| ==> q[i] != '/' && q[i] != ':' && q[i] != ',' && q[i] != ' '
  {
    QuoteBytes(Encode(s))
  }

  /**
   * The inverse of `QuoteBytes`, as `unquote_to_bytes` of a `+`-decoded
   * text, failing on any character `QuoteBytes` never writes.
   */
  function Unquote(s: string): Option<seq<byte>>
    decreases |s|
  {
    if s == [] then Some([])
    else if s[0] == '+' then
      var rest := Unquote(s[1..]);
      if rest.None? then None else Some([' ' as int as byte] + rest.value)
    else if s[0] == '%' then
      if |s| >= 3 && HexValue(s[1]).Some? && HexValue(s[2]).Some? then
        var rest := Unquote(s[3..]);
        if rest.None? then None else Some([(16 * HexValue(s[1]).value + HexValue(s[2]).value) as byte] + rest.value)
      else None
    else if s[0] as int < 256 && Unreserved(s[0] as int as byte) then
      var rest := Unquote(s[1..]);
      if rest.None? then None else Some([s[0] as int as byte] + rest.value)
    else None
  }

  /** Quoting loses nothing: the bytes can be read back from the quoted text. */
  lemma {:induction false} UnquoteQuote(bs: seq<byte>)
    ensures Unquote(QuoteBytes(bs)) == Some(bs)
  {
    if bs != [] {
      var b := bs[0];
      var head := QuoteByte(b);
      var rest := QuoteBytes(bs[1..]);
      UnquoteQuote(bs[1..]);
      var s := head + rest;
      assert QuoteBytes(bs) == s;
      assert bs == [b] + bs[1..];
      if Unreserved(b) {
        assert s[1..] == rest;
      } else if b as int == ' ' as int {
        assert s[1..] == rest;
      } else {
        assert s[3..] == rest;
        assert HexValue(s[1]) == Some(b as int / 16);
        assert HexValue(s[2]) == Some(b as int % 16);
      }
    }
  }

  /** The three characters the test of `output` shows encoded. */
  lemma QuoteCase()
    ensures QuotePlus(":") == "%3A"
    ensures QuotePlus("/") == "%2F"
    ensures QuotePlus(",") == "%2C"
  {
    assert Encode(":") == [':' as int as byte];
    assert Encode("/") == ['/' as int as byte];
    assert Encode(",") == [',' as int as byte];
  }
}

/**
 * The partial-recipe planning and merging of connectome_tools/merge.py:
 * one partial recipe per region, named after its constraints, computed
 * when its file does not exist yet, and concatenated in region order.
 */
module Merge {
  import opened Common
  import opened Strings
  import opened LastWins
  import FormEncoding

  /** The name of a task without constraints. */
  const MissingConstraints: string := "MISSING_CONSTRAINTS"

  /** The message of the assertion on strategy entries. */
  const SingleKeyMessage: string := "Only one key can be specified for the strategy"

  /** A `CreatePartialRecipe` task: paths are their strings. */
  datatype PartialRecipeTask = PartialRecipeTask(
    strategies: seq<StrategyEntry>, basePath: string, circuit: string, seed: int, jobs: int, logLevel: int)

  /**
   * What naming a task depends on beyond the task: `show(v)` is `f"{v}"`
   * for a value that is not a string, `resolve(p)` is `Path(p).resolve()`,
   * and `digest(c, s, seed)` the MD5 hex digest of the JSON of the triple.
   */
  datatype Naming = Naming(
    show: Value -> string, resolve: string -> string, digest: (string, seq<StrategyEntry>, int) -> string)

  /** A file: its directory and its name. */
  datatype FilePath = FilePath(dir: string, file: string)

  predicate AllSingle(strategies: seq<StrategyEntry>)
  {
    forall i :: 0 <= i < |strategies| ==> SingleStrategy(strategies[i])
  }

  /** What each entry adds to `params`: the keyword arguments of an add_constraints entry. */
  function ConstraintMaps(strategies: seq<StrategyEntry>): (ms: seq<ParamMap>)
    requires AllSingle(strategies)
    ensures |ms| == |strategies|
    ensures forall i :: 0 <= i < |ms| ==>
      ms[i] == if strategies[i][0].0 == AddConstraintsStrategy then strategies[i][0].1 else map[]
  {
    seq(|strategies|, i requires 0 <= i < |strategies| =>
      if strategies[i][0].0 == AddConstraintsStrategy then strategies[i][0].1 else map[])
  }

  /** `params` after the loop of `name`. */
  function ConstraintParams(strategies: seq<StrategyEntry>): ParamMap
    requires AllSingle(strategies)
  {
    Merge(ConstraintMaps(strategies))
  }

  /** An add_constraints entry that sets `k`. */
  predicate SetsConstraint(strategies: seq<StrategyEntry>, i: int, k: string)
    requires AllSingle(strategies)
  {
    0 <= i < |strategies| && strategies[i][0].0 == AddConstraintsStrategy && k in strategies[i][0].1
  }

  /**
   * A constraint is in `params` iff some add_constraints entry sets it,
   * with the value of the last such entry.
   */
  lemma ConstraintParamsAt(strategies: seq<StrategyEntry>, k: string)
    requires AllSingle(strategies)
    ensures k in ConstraintParams(strategies) <==> exists i :: SetsConstraint(strategies, i, k)
    ensures k in ConstraintParams(strategies) ==> exists i ::
      && SetsConstraint(strategies, i, k)
      && ConstraintParams(strategies)[k] == strategies[i][0].1[k]
      && forall j :: i < j < |strategies| ==> !SetsConstraint(strategies, j, k)
  {
    var ms := ConstraintMaps(strategies);
    MergeAt(ms, k);
    MergeKeys(ms, k);
    if exists i :: SetsConstraint(strategies, i, k) {
      var i :| SetsConstraint(strategies, i, k);
      assert k in ms[i];
    }
    if k in Merge(ms) {
      var i := LastWith(ms, k);
      assert SetsConstraint(strategies, i, k);
      forall j | i < j < |strategies|
        ensures !SetsConstraint(strategies, j, k)
      {
        assert k !in ms[j];
      }
    }
  }

  /** `f"{v}"`: a string as itself. */
  function Format(v: Value, naming: Naming): string
  {
    if v.Text? then v.s else naming.show(v)
  }

  /** The `"k:v"` items of `params`, sorted by key. */
  function Pairs(params: ParamMap, naming: Naming): (parts: seq<string>)
    ensures |parts| == |params|
    ensures forall i :: 0 <= i < |parts| ==>
      var k := SortedSet(params.Keys)[i];
      parts[i] == k + ":" + Format(params[k], naming)
  {
    var keys := SortedSet(params.Keys);
    seq(|keys|, i requires 0 <= i < |keys| => keys[i] + ":" + Format(params[keys[i]], naming))
  }

  /** `CreatePartialRecipe.name` */
  function Name(strategies: seq<StrategyEntry>, naming: Naming): (r: Result<string>)
    ensures r.Failure? <==> !AllSingle(strategies)
    ensures r.Failure? ==> r.error == AssertionError(SingleKeyMessage)
  {
    if !AllSingle(strategies) then Failure(AssertionError(SingleKeyMessage))
    else
      var params := ConstraintParams(strategies);
      if params == map[] then Success(MissingConstraints)
      else Success(Join(",", Pairs(params, naming)))
  }

  lemma JoinStartsWith(sep: string, parts: seq<string>)
    requires parts != []
    ensures StartsWith(Join(sep, parts), parts[0])
  {
  }

  /** A name made of constraints has a `:` right after its first key. */
  lemma PairsNameHasColon(params: ParamMap, naming: Naming)
    requires params != map[]
    ensures var k0 := SortedSet(params.Keys)[0];
      var name := Join(",", Pairs(params, naming));
      |k0| < |name| && name[|k0|] == ':'
  {
    var parts := Pairs(params, naming);
    var k0 := SortedSet(params.Keys)[0];
    JoinStartsWith(",", parts);
    var name := Join(",", parts);
    assert name[..|parts[0]|] == parts[0];
    assert parts[0][|k0|] == ':';
  }

  lemma MissingHasNoColon()
    ensures forall j :: 0 <= j < |MissingConstraints| ==> MissingConstraints[j] != ':'
  {
  }

  /** `params` is empty iff no add_constraints entry sets anything. */
  lemma ConstraintParamsEmpty(strategies: seq<StrategyEntry>)
    requires AllSingle(strategies)
    ensures ConstraintParams(strategies) == map[] <==>
      forall i :: 0 <= i < |strategies| && strategies[i][0].0 == AddConstraintsStrategy ==> strategies[i][0].1 == map[]
  {
    var params := ConstraintParams(strategies);
    if forall i :: 0 <= i < |strategies| && strategies[i][0].0 == AddConstraintsStrategy ==> strategies[i][0].1 == map[] {
      forall k | k in params
        ensures false
      {
        ConstraintParamsAt(strategies, k);
      }
    } else {
      var i :| 0 <= i < |strategies| && strategies[i][0].0 == AddConstraintsStrategy && strategies[i][0].1 != map[];
      var k :| k in strategies[i][0].1;
      ConstraintParamsAt(strategies, k);
      assert SetsConstraint(strategies, i, k);
    }
  }

  /**
   * The name is MISSING_CONSTRAINTS iff no add_constraints entry sets
   * anything: a name made of constraints holds a `:` where that one does
   * not.
   */
  lemma NameMissing(strategies: seq<StrategyEntry>, naming: Naming)
    requires AllSingle(strategies)
    ensures Name(strategies, naming) == Success(MissingConstraints) <==>
      forall i :: 0 <= i < |strategies| && strategies[i][0].0 == AddConstraintsStrategy ==> strategies[i][0].1 == map[]
  {
    ConstraintParamsEmpty(strategies);
    var params := ConstraintParams(strategies);
    if params != map[] {
      PairsNameHasColon(params, naming);
      MissingHasNoColon();
      var name := Join(",", Pairs(params, naming));
      var i := |SortedSet(params.Keys)[0]|;
      if i < |MissingConstraints| {
        assert name[i] != MissingConstraints[i];
      }
      assert name != MissingConstraints;
    }
  }

  /** Two keys are sorted as `LexLess` orders them. */
  lemma SortedPair(a: string, b: string)
    requires LexLess(a, b)
    ensures SortedSet({a, b}) == [a, b]
  {
    var keys := SortedSet({a, b});
    LexLessAsymmetric(a, b);
    LexLessIrreflexive(a);
    assert keys[0] in {a, b} && keys[1] in {a, b};
    assert LexLess(keys[0], keys[1]);
  }

  /** The name of two constraints. */
  lemma PairsOfTwo(params: ParamMap, a: string, b: string, naming: Naming)
    requires params.Keys == {a, b} && LexLess(a, b)
    ensures Join(",", Pairs(params, naming)) == a + ":" + Format(params[a], naming) + "," + b + ":" + Format(params[b], naming)
  {
    SortedPair(a, b);
    var parts := Pairs(params, naming);
    assert |parts| == 2;
    assert Join(",", parts[1..]) == parts[1];
  }

  /** The test of the properties: the two constraints, by key, in the name. */
  lemma NameCase(naming: Naming)
    ensures Name([[(AddConstraintsStrategy, map["toRegion" := Text("PP2/3"), "fromRegion" := Text("SS2/3")])]], naming)
         == Success("fromRegion:SS2/3,toRegion:PP2/3")
  {
    var kwargs := map["toRegion" := Text("PP2/3"), "fromRegion" := Text("SS2/3")];
    var strategies := [[(AddConstraintsStrategy, kwargs)]];
    var ms := ConstraintMaps(strategies);
    assert SingleStrategy(strategies[0]);
    assert ms == [] + [kwargs];
    MergeAppend([], kwargs);
    assert ConstraintParams(strategies) == kwargs;
    assert kwargs.Keys == {"fromRegion", "toRegion"};
    assert LexLess("fromRegion", "toRegion");
    PairsOfTwo(kwargs, "fromRegion", "toRegion", naming);
    assert "toRegion" in kwargs;
    assert Name(strategies, naming) == Success(Join(",", Pairs(kwargs, naming)));
    assert Format(kwargs["fromRegion"], naming) == "SS2/3";
    assert Format(kwargs["toRegion"], naming) == "PP2/3";
    NameSpelling();
  }

  lemma NameSpelling()
    ensures "fromRegion" + ":" + "SS2/3" + "," + "toRegion" + ":" + "PP2/3" == "fromRegion:SS2/3,toRegion:PP2/3"
  {
  }

  /** `CreatePartialRecipe.checksum` */
  function Checksum(t: PartialRecipeTask, naming: Naming): string
  {
    naming.digest(naming.resolve(t.circuit), t.strategies, t.seed)
  }

  /**
   * The checksum does not depend on where the recipe goes nor on how it is
   * computed.  This holds by the shape of `Checksum`: it reads only the
   * circuit, the strategies and the seed.
   */
  lemma ChecksumIgnoresRunSettings(t: PartialRecipeTask, naming: Naming, basePath: string, jobs: int, logLevel: int)
    ensures Checksum(t.(basePath := basePath, jobs := jobs, logLevel := logLevel), naming) == Checksum(t, naming)
  {
  }

  /** `CreatePartialRecipe.output` */
  function Output(t: PartialRecipeTask, naming: Naming): (r: Result<FilePath>)
    ensures r.Failure? <==> !AllSingle(t.strategies)
    ensures r.Success? ==> r.value.dir == t.basePath
  {
    var name := Name(t.strategies, naming);
    if name.Failure? then Failure(name.error)
    else Success(FilePath(t.basePath, FileName(FormEncoding.QuotePlus(name.value), Checksum(t, naming))))
  }

  /** The file name of a partial recipe of a quoted name and a checksum. */
  function FileName(quoted: string, checksum: string): string
  {
    "recipe_" + quoted + "_" + checksum + ".xml"
  }

  lemma FileNameAffixes(quoted: string, checksum: string)
    ensures StartsWith(FileName(quoted, checksum), "recipe_") && EndsWith(FileName(quoted, checksum), ".xml")
  {
    var file := FileName(quoted, checksum);
    assert file[..7] == "recipe_";
    assert file[|file| - 4..] == ".xml";
  }

  /**
   * The file of a partial recipe starts with `recipe_` and ends with
   * `.xml`; between them, its name as quoted, from which the name's bytes
   * can be read back, and its checksum.
   */
  lemma OutputFileName(t: PartialRecipeTask, naming: Naming)
    requires AllSingle(t.strategies)
    ensures var file := Output(t, naming).value.file;
      && StartsWith(file, "recipe_") && EndsWith(file, ".xml")
      && exists q :: FormEncoding.Unquote(q) == Some(FormEncoding.Encode(Name(t.strategies, naming).value))
                     && file == FileName(q, Checksum(t, naming))
  {
    var q := FormEncoding.QuotePlus(Name(t.strategies, naming).value);
    FormEncoding.UnquoteQuote(FormEncoding.Encode(Name(t.strategies, naming).value));
    FileNameAffixes(q, Checksum(t, naming));
  }

  /** A file name of the layout of `output` splits back into its quoted name and its checksum. */
  lemma FileNameSplits(q1: string, c1: string, q2: string, c2: string)
    requires |c1| == 32 && |c2| == 32
    requires FileName(q1, c1) == FileName(q2, c2)
    ensures q1 == q2 && c1 == c2
  {
    var f := FileName(q1, c1);
    var g := FileName(q2, c2);
    assert |q1| == |q2|;
    assert f[7..7 + |q1|] == q1;
    assert g[7..7 + |q2|] == q2;
    assert f[8 + |q1|..8 + |q1| + 32] == c1;
    assert g[8 + |q2|..8 + |q2| + 32] == c2;
  }

  /**
   * With checksums of MD5's 32 digits, two tasks write the same file only
   * when their checksums agree and their names have the same UTF-8 bytes.
   */
  lemma OutputDeterminesName(t1: PartialRecipeTask, t2: PartialRecipeTask, naming: Naming)
    requires |Checksum(t1, naming)| == 32 && |Checksum(t2, naming)| == 32
    requires Output(t1, naming).Success? && Output(t1, naming) == Output(t2, naming)
    ensures FormEncoding.Encode(Name(t1.strategies, naming).value) == FormEncoding.Encode(Name(t2.strategies, naming).value)
    ensures Checksum(t1, naming) == Checksum(t2, naming)
  {
    var n1 := Name(t1.strategies, naming).value;
    var n2 := Name(t2.strategies, naming).value;
    FileNameSplits(FormEncoding.QuotePlus(n1), Checksum(t1, naming), FormEncoding.QuotePlus(n2), Checksum(t2, naming));
    FormEncoding.UnquoteQuote(FormEncoding.Encode(n1));
    FormEncoding.UnquoteQuote(FormEncoding.Encode(n2));
  }

  /** `CreatePartialRecipe.complete()`: whether a file exists at `output`. */
  function Complete(t: PartialRecipeTask, naming: Naming, files: set<FilePath>): (r: Result<bool>)
    ensures r.Failure? <==> !AllSingle(t.strategies)
    ensures r.Success? ==> (r.value <==> Output(t, naming).value in files)
  {
    var output := Output(t, naming);
    if output.Failure? then Failure(output.error) else Success(output.value in files)
  }

  /** Some task has a strategy entry that is not a single strategy. */
  predicate Misnamed(tasks: seq<PartialRecipeTask>)
  {
    exists i :: 0 <= i < |tasks| && !AllSingle(tasks[i].strategies)
  }

  /**
   * The elements of `xs` for which `complete` gives false, in their order,
   * or the first error `complete` gives.
   */
  function Incomplete<T>(xs: seq<T>, complete: T -> Result<bool>): Result<seq<T>>
  {
    if xs == [] then Success([])
    else
      var before := Incomplete(xs[..|xs| - 1], complete);
      var x := xs[|xs| - 1];
      if before.Failure? then before
      else
        var c := complete(x);
        if c.Failure? then Failure(c.error)
        else if c.value then before
        else Success(before.value + [x])
  }

  /** The filter fails iff `complete` fails on some element, and with one of its errors. */
  lemma {:induction false} IncompleteFailure<T>(xs: seq<T>, complete: T -> Result<bool>)
    ensures Incomplete(xs, complete).Failure? <==> exists i :: 0 <= i < |xs| && complete(xs[i]).Failure?
    ensures Incomplete(xs, complete).Failure? ==>
      exists i :: 0 <= i < |xs| && complete(xs[i]) == Failure(Incomplete(xs, complete).error)
  {
    if xs != [] {
      var init := xs[..|xs| - 1];
      IncompleteFailure(init, complete);
      if Incomplete(init, complete).Failure? {
        var i :| 0 <= i < |init| && complete(init[i]) == Failure(Incomplete(init, complete).error);
        assert xs[i] == init[i];
      }
      if exists i :: 0 <= i < |xs| && complete(xs[i]).Failure? {
        var i :| 0 <= i < |xs| && complete(xs[i]).Failure?;
        if i < |init| {
          assert init[i] == xs[i];
        }
      }
    }
  }

  /** The filter keeps exactly the elements `complete` gives false for. */
  lemma {:induction false} IncompleteMembers<T>(xs: seq<T>, complete: T -> Result<bool>, x: T)
    requires Incomplete(xs, complete).Success?
    ensures x in Incomplete(xs, complete).value <==> x in xs && complete(x) == Success(false)
  {
    if xs != [] {
      var init := xs[..|xs| - 1];
      IncompleteMembers(init, complete, x);
      assert xs == init + [xs[|xs| - 1]];
    }
  }

  /** The number of elements `complete` gives true for. */
  function Completed<T>(xs: seq<T>, complete: T -> Result<bool>): nat
  {
    if xs == [] then 0
    else Completed(xs[..|xs| - 1], complete) + if complete(xs[|xs| - 1]) == Success(true) then 1 else 0
  }

  /** What the filter drops are the elements `complete` gives true for. */
  lemma {:induction false} IncompleteCount<T>(xs: seq<T>, complete: T -> Result<bool>)
    requires Incomplete(xs, complete).Success?
    ensures |Incomplete(xs, complete).value| + Completed(xs, complete) == |xs|
  {
    if xs != [] {
      IncompleteCount(xs[..|xs| - 1], complete);
    }
  }

  lemma IncompleteStep<T>(xs: seq<T>, i: int, complete: T -> Result<bool>)
    requires 0 <= i < |xs|
    requires Incomplete(xs[..i], complete).Success?
    ensures var c := complete(xs[i]);
      Incomplete(xs[..i + 1], complete)
      == if c.Failure? then Failure(c.error)
         else if c.value then Incomplete(xs[..i], complete)
         else Success(Incomplete(xs[..i], complete).value + [xs[i]])
  {
    assert xs[..i + 1][..i] == xs[..i];
  }

  lemma {:induction false} IncompleteFailureSticks<T>(xs: seq<T>, i: nat, complete: T -> Result<bool>)
    requires i <= |xs|
    requires Incomplete(xs[..i], complete).Failure?
    ensures Incomplete(xs, complete) == Incomplete(xs[..i], complete)
    decreases |xs| - i
  {
    if i < |xs| {
      assert xs[..i + 1][..i] == xs[..i];
      IncompleteFailureSticks(xs, i + 1, complete);
    } else {
      assert xs[..i] == xs;
    }
  }

  /** `complete()` of each task. */
  function CompleteIn(naming: Naming, files: set<FilePath>): PartialRecipeTask -> Result<bool>
  {
    t => Complete(t, naming, files)
  }

  /** The tasks of `tasks` already complete. */
  function CompleteCount(tasks: seq<PartialRecipeTask>, naming: Naming, files: set<FilePath>): nat
  {
    Completed(tasks, CompleteIn(naming, files))
  }

  /**
   * `pending_tasks`: the incomplete tasks in their order, or the assertion
   * `complete()` raises on a task with a malformed strategy entry.
   */
  function Pending(tasks: seq<PartialRecipeTask>, naming: Naming, files: set<FilePath>): (r: Result<seq<PartialRecipeTask>>)
    ensures r.Failure? <==> Misnamed(tasks)
    ensures r.Failure? ==> r.error == AssertionError(SingleKeyMessage)
  {
    var complete := CompleteIn(naming, files);
    IncompleteFailure(tasks, complete);
    assert forall i :: 0 <= i < |tasks| ==> (complete(tasks[i]).Failure? <==> !AllSingle(tasks[i].strategies));
    Incomplete(tasks, complete)
  }

  /** The pending tasks are exactly the tasks not complete. */
  lemma PendingMembers(tasks: seq<PartialRecipeTask>, naming: Naming, files: set<FilePath>, t: PartialRecipeTask)
    requires Pending(tasks, naming, files).Success?
    ensures t in Pending(tasks, naming, files).value <==> t in tasks && Complete(t, naming, files) == Success(false)
  {
    IncompleteMembers(tasks, CompleteIn(naming, files), t);
  }

  /** The tasks left out of `pending_tasks` are the complete ones, logged as already calculated. */
  lemma PendingCount(tasks: seq<PartialRecipeTask>, naming: Naming, files: set<FilePath>)
    requires Pending(tasks, naming, files).Success?
    ensures |Pending(tasks, naming, files).value| <= |tasks|
    ensures |tasks| - |Pending(tasks, naming, files).value| == CompleteCount(tasks, naming, files)
  {
    IncompleteCount(tasks, CompleteIn(naming, files));
  }

  /** No pending task has a malformed strategy entry. */
  lemma PendingNamed(tasks: seq<PartialRecipeTask>, naming: Naming, files: set<FilePath>)
    requires Pending(tasks, naming, files).Success?
    ensures !Misnamed(Pending(tasks, naming, files).value)
  {
    var pending := Pending(tasks, naming, files).value;
    forall i | 0 <= i < |pending|
      ensures AllSingle(pending[i].strategies)
    {
      PendingMembers(tasks, naming, files, pending[i]);
    }
  }

  lemma PendingStep(tasks: seq<PartialRecipeTask>, i: int, naming: Naming, files: set<FilePath>)
    requires 0 <= i < |tasks|
    requires Pending(tasks[..i], naming, files).Success?
    ensures var c := Complete(tasks[i], naming, files);
      Pending(tasks[..i + 1], naming, files)
      == if c.Failure? then Failure(c.error)
         else if c.value then Pending(tasks[..i], naming, files)
         else Success(Pending(tasks[..i], naming, files).value + [tasks[i]])
  {
    IncompleteStep(tasks, i, CompleteIn(naming, files));
  }

  lemma PendingFailureSticks(tasks: seq<PartialRecipeTask>, i: nat, naming: Naming, files: set<FilePath>)
    requires i <= |tasks|
    requires Pending(tasks[..i], naming, files).Failure?
    ensures Pending(tasks, naming, files) == Pending(tasks[..i], naming, files)
  {
    IncompleteFailureSticks(tasks, i, CompleteIn(naming, files));
  }

  /** The comprehension `pending_tasks` of `run`, task after task. */
  method PendingTasks(tasks: seq<PartialRecipeTask>, naming: Naming, files: set<FilePath>)
    returns (r: Result<seq<PartialRecipeTask>>)
    ensures r == Pending(tasks, naming, files)
  {
    var pending := [];
    var i := 0;
    while i < |tasks|
      invariant 0 <= i <= |tasks|
      invariant Pending(tasks[..i], naming, files) == Success(pending)
    {
      PendingStep(tasks, i, naming, files);
      var complete := Complete(tasks[i], naming, files);
      if complete.Failure? {
        PendingFailureSticks(tasks, i + 1, naming, files);
        return Failure(complete.error);
      }
      if !complete.value {
        pending := pending + [tasks[i]];
      }
      i := i + 1;
    }
    assert tasks[..i] == tasks;
    return Success(pending);
  }

  /** What running a job gave: the rule elements it wrote, or the exception `results()` raised. */
  datatype JobOutcome = Done(rules: seq<Element>) | Failed(reason: string)

  /** A rule element of a recipe. */
  datatype Element = Element(tag: string, attributes: map<string, string>)

  /** The number of jobs whose `results()` raises. */
  function FailureCount(tasks: seq<PartialRecipeTask>, outcome: PartialRecipeTask -> JobOutcome): (n: nat)
    ensures n <= |tasks|
    ensures n == 0 <==> forall i :: 0 <= i < |tasks| ==> outcome(tasks[i]).Done?
  {
    if tasks == [] then 0
    else
      var n := FailureCount(tasks[..|tasks| - 1], outcome);
      assert forall i :: 0 <= i < |tasks| - 1 ==> tasks[..|tasks| - 1][i] == tasks[i];
      n + if outcome(tasks[|tasks| - 1]).Failed? then 1 else 0
  }

  /**
   * `execute_pending_tasks`: every job is waited for, a failed one counted
   * and the loop goes on.  `outcome(t)` is what the job running `t` gives;
   * the jobs are visited in submission order, which does not change a count.
   */
  method ExecutePendingTasks(pending: seq<PartialRecipeTask>, outcome: PartialRecipeTask -> JobOutcome) returns (failures: nat)
    ensures failures == FailureCount(pending, outcome)
  {
    failures := 0;
    var n := 0;
    while n < |pending|
      invariant 0 <= n <= |pending|
      invariant failures == FailureCount(pending[..n], outcome)
    {
      assert pending[..n + 1][..n] == pending[..n];
      if outcome(pending[n]).Failed? {
        failures := failures + 1;
      }
      n := n + 1;
    }
    assert pending[..n] == pending;
  }

  /**
   * The partial recipes on disk after a sequence of jobs, each with the
   * file it writes to and its outcome: a job that succeeded wrote its file.
   */
  function FilesAfter(files: map<FilePath, seq<Element>>, jobs: seq<(Result<FilePath>, JobOutcome)>): (r: map<FilePath, seq<Element>>)
    ensures files.Keys <= r.Keys
  {
    if jobs == [] then files
    else
      var before := FilesAfter(files, jobs[..|jobs| - 1]);
      var (output, outcome) := jobs[|jobs| - 1];
      if outcome.Done? && output.Success? then before[output.value := outcome.rules] else before
  }

  lemma {:induction false} WrittenHas(files: map<FilePath, seq<Element>>, jobs: seq<(Result<FilePath>, JobOutcome)>, i: int)
    requires 0 <= i < |jobs| && jobs[i].0.Success? && jobs[i].1.Done?
    ensures jobs[i].0.value in FilesAfter(files, jobs)
  {
    var n := |jobs| - 1;
    if i < n {
      assert jobs[..n][i] == jobs[i];
      WrittenHas(files, jobs[..n], i);
    }
  }

  /** The jobs of the pending tasks: each task's output and the outcome of its job. */
  function Jobs(pending: seq<PartialRecipeTask>, naming: Naming, outcome: PartialRecipeTask -> JobOutcome)
    : (jobs: seq<(Result<FilePath>, JobOutcome)>)
    ensures |jobs| == |pending|
    ensures forall i :: 0 <= i < |pending| ==> jobs[i] == (Output(pending[i], naming), outcome(pending[i]))
  {
    seq(|pending|, i requires 0 <= i < |pending| => (Output(pending[i], naming), outcome(pending[i])))
  }

  /** The partial recipes on disk after the jobs of the pending tasks have run. */
  function AfterJobs(
    files: map<FilePath, seq<Element>>, pending: seq<PartialRecipeTask>, naming: Naming, outcome: PartialRecipeTask -> JobOutcome
  ): map<FilePath, seq<Element>>
  {
    FilesAfter(files, Jobs(pending, naming, outcome))
  }

  /** The generated document: its leading comment and the rule elements of its root. */
  datatype XmlTree = XmlTree(comment: string, rules: seq<Element>)

  /** The rules of the partial recipes at `paths`, one after the other, or the first missing file. */
  function Concatenation(paths: seq<FilePath>, files: map<FilePath, seq<Element>>): (r: Result<seq<Element>>)
    ensures r.Failure? <==> exists i :: 0 <= i < |paths| && paths[i] !in files
  {
    if paths == [] then Success([])
    else
      var before := Concatenation(paths[..|paths| - 1], files);
      var p := paths[|paths| - 1];
      assert forall i :: 0 <= i < |paths| - 1 ==> paths[..|paths| - 1][i] == paths[i];
      if before.Failure? then before
      else if p !in files then Failure(FileNotFound(p.dir + "/" + p.file))
      else Success(before.value + files[p])
  }

  /** Each partial recipe keeps its place: its rules follow those of the recipes before it. */
  lemma {:induction false} ConcatenationAt(paths: seq<FilePath>, files: map<FilePath, seq<Element>>, i: int)
    requires 0 <= i < |paths|
    requires Concatenation(paths, files).Success?
    ensures Concatenation(paths[..i], files).Success?
    ensures var start := |Concatenation(paths[..i], files).value|;
      var rules := Concatenation(paths, files).value;
      start + |files[paths[i]]| <= |rules| && rules[start..start + |files[paths[i]]|] == files[paths[i]]
    decreases |paths|
  {
    var init := paths[..|paths| - 1];
    if i == |paths| - 1 {
      assert paths[..i] == init;
    } else {
      assert init[..i] == paths[..i];
      ConcatenationAt(init, files, i);
      assert init[i] == paths[i];
    }
  }

  /**
   * `_build_xml_tree(paths, comment)`: the root gets the children of each
   * partial root in turn; a missing file raises.
   */
  method BuildXmlTree(paths: seq<FilePath>, comment: string, files: map<FilePath, seq<Element>>) returns (r: Result<XmlTree>)
    ensures r.Failure? <==> Concatenation(paths, files).Failure?
    ensures r.Success? ==> r.value == XmlTree(comment, Concatenation(paths, files).value)
  {
    var rules := [];
    var i := 0;
    while i < |paths|
      invariant 0 <= i <= |paths|
      invariant Concatenation(paths[..i], files) == Success(rules)
    {
      assert paths[..i + 1][..i] == paths[..i];
      var path := paths[i];
      if path !in files {
        assert Concatenation(paths[..i + 1], files).Failure?;
        ConcatenationFailureSticks(paths, i + 1, files);
        return Failure(FileNotFound(path.dir + "/" + path.file));
      }
      rules := rules + files[path];
      i := i + 1;
    }
    assert paths[..i] == paths;
    return Success(XmlTree(comment, rules));
  }

  lemma {:induction false} ConcatenationFailureSticks(paths: seq<FilePath>, i: nat, files: map<FilePath, seq<Element>>)
    requires i <= |paths|
    requires Concatenation(paths[..i], files).Failure?
    ensures Concatenation(paths, files) == Concatenation(paths[..i], files)
    decreases |paths| - i
  {
    if i < |paths| {
      assert paths[..i + 1][..i] == paths[..i];
      ConcatenationFailureSticks(paths, i + 1, files);
    } else {
      assert paths[..i] == paths;
    }
  }

  /** The tasks of `CreateFullRecipe.run`, one per region, all with the same seed. */
  function AllTasks(regions: seq<seq<StrategyEntry>>, recipesPath: string, circuit: string, seed: int, jobs: int, logLevel: int)
    : (tasks: seq<PartialRecipeTask>)
    ensures |tasks| == |regions|
    ensures forall i :: 0 <= i < |regions| ==>
      tasks[i] == PartialRecipeTask(regions[i], recipesPath, circuit, seed, jobs, logLevel)
  {
    seq(|regions|, i requires 0 <= i < |regions| => PartialRecipeTask(regions[i], recipesPath, circuit, seed, jobs, logLevel))
  }

  /** The output paths of the tasks, in their order. */
  function Outputs(tasks: seq<PartialRecipeTask>, naming: Naming): (paths: seq<FilePath>)
    requires !Misnamed(tasks)
    ensures |paths| == |tasks|
    ensures forall i :: 0 <= i < |tasks| ==> paths[i] == Output(tasks[i], naming).value
  {
    seq(|tasks|, i requires 0 <= i < |tasks| => Output(tasks[i], naming).value)
  }

  /** How `CreateFullRecipe.run` ends. */
  datatype RunOutcome = Raised(error: Error) | Exited(status: int) | Written(tree: XmlTree)

  /**
   * After the jobs all succeeded, every task's partial recipe is on disk:
   * it was there already, or its job wrote it.
   */
  lemma AllOutputsExist(
    tasks: seq<PartialRecipeTask>, naming: Naming, files: map<FilePath, seq<Element>>, outcome: PartialRecipeTask -> JobOutcome,
    pending: seq<PartialRecipeTask>, i: int
  )
    requires Pending(tasks, naming, files.Keys) == Success(pending)
    requires FailureCount(pending, outcome) == 0
    requires 0 <= i < |tasks|
    ensures AllSingle(tasks[i].strategies)
    ensures Output(tasks[i], naming).value in AfterJobs(files, pending, naming, outcome)
  {
    assert !AllSingle(tasks[i].strategies) ==> Misnamed(tasks);
    var t := tasks[i];
    var c := Complete(t, naming, files.Keys);
    if c == Success(false) {
      PendingMembers(tasks, naming, files.Keys, t);
      var j :| 0 <= j < |pending| && pending[j] == t;
      WrittenHas(files, Jobs(pending, naming, outcome), j);
    } else {
      assert Output(t, naming).value in files.Keys;
    }
  }

  /**
   * `CreateFullRecipe.run`: `files` are the partial recipes on disk before
   * the run, `comment` the generated header and `outcome(t)` what the job
   * of a pending task gives.  A malformed strategy entry raises; a failed
   * job exits with status 1 before anything is merged; otherwise the
   * partial recipes of all regions are concatenated in region order, which
   * never misses a file.
   */
  method Run(
    regions: seq<seq<StrategyEntry>>, recipesPath: string, circuit: string, seed: int, jobs: int, logLevel: int,
    comment: string, naming: Naming, files: map<FilePath, seq<Element>>, outcome: PartialRecipeTask -> JobOutcome
  ) returns (r: RunOutcome)
    ensures var tasks := AllTasks(regions, recipesPath, circuit, seed, jobs, logLevel);
      && (r.Raised? <==> Misnamed(tasks))
      && (r.Raised? ==> r.error == AssertionError(SingleKeyMessage))
      && (r.Exited? <==> !Misnamed(tasks) && FailureCount(Pending(tasks, naming, files.Keys).value, outcome) > 0)
      && (r.Exited? ==> r.status == 1)
      && (r.Written? ==>
            var written := AfterJobs(files, Pending(tasks, naming, files.Keys).value, naming, outcome);
            Concatenation(Outputs(tasks, naming), written).Success?
            && r.tree == XmlTree(comment, Concatenation(Outputs(tasks, naming), written).value))
  {
    var tasks := AllTasks(regions, recipesPath, circuit, seed, jobs, logLevel);
    var pendingTasks := PendingTasks(tasks, naming, files.Keys);
    if pendingTasks.Failure? {
      return Raised(pendingTasks.error);
    }
    var pending := pendingTasks.value;
    if pending != [] {
      var failures := ExecutePendingTasks(pending, outcome);
      if failures > 0 {
        return Exited(1);
      }
    }
    assert FailureCount(pending, outcome) == 0;
    var written := AfterJobs(files, pending, naming, outcome);
    var paths := Outputs(tasks, naming);
    forall j | 0 <= j < |paths|
      ensures paths[j] in written
    {
      AllOutputsExist(tasks, naming, files, outcome, pending, j);
    }
    assert Concatenation(paths, written).Success?;
    var tree := BuildXmlTree(paths, comment, written);
    return Written(tree.value);
  }
}
