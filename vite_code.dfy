/**
 * The build plugin's code generator (packages/vite/src/code.ts): option
 * defaults, and the expression that turns a discovered controller file path
 * into a route expression.
 *
 * The emitted registration code is represented by the option-dependent parts
 * it interpolates (`Injection`), not by its text.
 */
module ViteCode {
  import opened Wrappers
  import opened Strings

  const DEFAULT_DIRECTORY: string := "controllers"
  const DEFAULT_SUFFIX: string := ".controller.tsx"

  /** The optional settings of `makeInjectionCode`; `None` is an omitted property. */
  datatype InjectionOptions = InjectionOptions(eager: Option<bool>, directory: Option<string>, suffix: Option<string>)

  /**
   * What the generated code depends on: the glob's directory, suffix and
   * `eager` literal, the prefix and suffix cut from each path, and the literal
   * passed to `setWindowEager`.
   */
  datatype Injection = Injection(
    globDirectory: string,
    globSuffix: string,
    globEager: string,
    pathPrefix: string,
    pathSuffix: string,
    windowEager: string)

  /** `(!!eager).toString()` */
  function BoolString(b: bool): string {
    if b then "true" else "false"
  }

  /** Destructuring defaults: only a missing property takes the default. */
  function MakeInjectionCode(options: InjectionOptions): (code: Injection)
    ensures code.globEager == code.windowEager
    ensures code.globEager == (if options.eager == Some(true) then "true" else "false")
    ensures options.directory.None? ==> code.globDirectory == DEFAULT_DIRECTORY
    ensures options.directory.Some? ==> code.globDirectory == options.directory.value
    ensures options.suffix.None? ==> code.globSuffix == DEFAULT_SUFFIX
    ensures options.suffix.Some? ==> code.globSuffix == options.suffix.value
    ensures code.pathPrefix == "./" + code.globDirectory && code.pathSuffix == code.globSuffix
  {
    var eager := options.eager.GetOr(false);
    var directory := options.directory.GetOr(DEFAULT_DIRECTORY);
    var suffix := options.suffix.GetOr(DEFAULT_SUFFIX);
    var eagerValue := BoolString(eager);
    Injection(directory, suffix, eagerValue, "./" + directory, suffix, eagerValue)
  }

  /** Number of characters other than `]` from position `from` on. */
  function RunLength(s: string, from: nat): (n: nat)
    requires from <= |s|
    ensures from + n <= |s|
    ensures forall k :: from <= k < from + n ==> s[k] != ']'
    ensures from + n < |s| ==> s[from + n] == ']'
    decreases |s| - from
  {
    if from == |s| || s[from] == ']' then 0 else 1 + RunLength(s, from + 1)
  }

  /** Whether a `open([^\]]+)\]` match starts at position 0 of `s`. */
  predicate GroupAtStart(s: string, open: string) {
    StartsWith(s, open) && 0 < RunLength(s, |open|) && |open| + RunLength(s, |open|) < |s|
  }

  /**
   * `s.replace(/<open>([^\]]+)\]/g, '<repl>$1')` for an opening literal that
   * starts with `[`: scanning left to right, every match is replaced by
   * `repl` followed by the captured text.
   */
  function ReplaceGroups(s: string, open: string, repl: string): string
    decreases |s|
  {
    if s == [] then []
    else if GroupAtStart(s, open) then
      var n := RunLength(s, |open|);
      repl + s[|open|..|open| + n] + ReplaceGroups(s[|open| + n + 1..], open, repl)
    else [s[0]] + ReplaceGroups(s[1..], open, repl)
  }

  /** Line 28: cut `./<directory>` and `<suffix>`, drop a final `/index`, and use `/` for an empty result. */
  function DeriveUrl(path: string, prefix: string, suffix: string): (url: string)
    ensures url != ""
  {
    var sliced := Slice(path, |prefix|, -|suffix|);
    var trimmed := if EndsWith(sliced, "/index") then sliced[..|sliced| - 6] else sliced;
    if trimmed == "" then "/" else trimmed
  }

  /** Line 29: catch-all groups `[...x]` first, then parameter groups `[x]`. */
  function RouteExpression(url: string): string {
    ReplaceGroups(ReplaceGroups(url, "[...", "**:"), "[", ":")
  }

  /** The route a discovered file is registered under. */
  function DeriveRoute(code: Injection, path: string): string {
    RouteExpression(DeriveUrl(path, code.pathPrefix, code.pathSuffix))
  }

  // ---------------------------------------------------------------------------
  // Reference definition: a controller file path as a list of segments.

  datatype Segment = Static(text: string) | Param(name: string) | CatchAll(name: string)

  /** Text with no bracket and no path separator. */
  predicate Plain(t: string) {
    forall k :: 0 <= k < |t| ==> t[k] != '[' && t[k] != ']' && t[k] != '/'
  }

  predicate WellFormedSegment(g: Segment) {
    match g
    case Static(t) => Plain(t)
    case Param(n) => Plain(n) && n != "" && !StartsWith(n, "...")
    case CatchAll(n) => Plain(n) && n != ""
  }

  predicate WellFormed(segs: seq<Segment>) {
    forall i :: 0 <= i < |segs| ==> WellFormedSegment(segs[i])
  }

  /** How a segment is spelled in a file name. */
  function FileSegment(g: Segment): string {
    match g
    case Static(t) => t
    case Param(n) => "[" + n + "]"
    case CatchAll(n) => "[..." + n + "]"
  }

  /** How a segment is spelled in a route expression. */
  function RouteSegment(g: Segment): string {
    match g
    case Static(t) => t
    case Param(n) => ":" + n
    case CatchAll(n) => "**:" + n
  }

  /** A segment after the catch-all pass only. */
  function HalfSegment(g: Segment): string {
    match g
    case Static(t) => t
    case Param(n) => "[" + n + "]"
    case CatchAll(n) => "**:" + n
  }

  function FilePath(segs: seq<Segment>): string {
    if segs == [] then "" else "/" + FileSegment(segs[0]) + FilePath(segs[1..])
  }

  function RoutePath(segs: seq<Segment>): string {
    if segs == [] then "" else "/" + RouteSegment(segs[0]) + RoutePath(segs[1..])
  }

  function HalfPath(segs: seq<Segment>): string {
    if segs == [] then "" else "/" + HalfSegment(segs[0]) + HalfPath(segs[1..])
  }

  /** The segments of the route: a final `index` file names its directory. */
  function RouteSegments(segs: seq<Segment>): seq<Segment> {
    if segs != [] && segs[|segs| - 1] == Static("index") then segs[..|segs| - 1] else segs
  }

  /** The route the file naming convention promises for a file. */
  function ExpectedRoute(segs: seq<Segment>): string {
    var kept := RouteSegments(segs);
    if kept == [] then "/" else RoutePath(kept)
  }

  // ---------------------------------------------------------------------------
  // Proofs

  predicate NoOpen(a: string) {
    forall k :: 0 <= k < |a| ==> a[k] != '['
  }

  lemma Assoc(a: string, b: string, c: string)
    ensures a + b + c == a + (b + c)
  {
  }

  /** Text without `[` passes through a group replacement unchanged. */
  lemma {:induction false} PassThrough(a: string, b: string, open: string, repl: string)
    requires NoOpen(a) && StartsWith(open, "[")
    ensures ReplaceGroups(a + b, open, repl) == a + ReplaceGroups(b, open, repl)
    decreases |a|
  {
    if a == [] {
      assert a + b == b;
    } else {
      var s := a + b;
      assert s[0] == a[0] && a[0] != '[';
      assert open[..1][0] == open[0] == '[';
      assert !GroupAtStart(s, open) by {
        if |open| <= |s| {
          assert s[..|open|][0] == s[0];
        }
      }
      assert ReplaceGroups(s, open, repl) == [s[0]] + ReplaceGroups(s[1..], open, repl);
      assert s[1..] == a[1..] + b;
      assert NoOpen(a[1..]);
      PassThrough(a[1..], b, open, repl);
      assert a == [a[0]] + a[1..];
    }
  }

  /** The run of non-`]` characters is exactly the text before the next `]`. */
  lemma {:induction false} RunLengthExact(s: string, from: nat, m: nat)
    requires from + m < |s| && s[from + m] == ']'
    requires forall k :: from <= k < from + m ==> s[k] != ']'
    ensures RunLength(s, from) == m
    decreases m
  {
    if m > 0 {
      RunLengthExact(s, from + 1, m - 1);
    }
  }

  /** A group `open name ]` is replaced by `repl name`. */
  lemma GroupReplaced(name: string, b: string, open: string, repl: string)
    requires Plain(name) && name != ""
    ensures ReplaceGroups(open + name + "]" + b, open, repl) == repl + name + ReplaceGroups(b, open, repl)
  {
    var s := open + name + "]" + b;
    var o := |open|;
    assert s[..o] == open;
    assert s[o..o + |name|] == name;
    assert s[o + |name|] == ']';
    forall k | o <= k < o + |name| ensures s[k] != ']' {
      assert s[k] == name[k - o];
    }
    RunLengthExact(s, o, |name|);
    assert s[o + |name| + 1..] == b;
  }

  lemma PlainHasNoOpen(t: string)
    requires Plain(t)
    ensures NoOpen(t) && NoOpen("/" + t) && NoOpen(t + "]") && NoOpen("/**:" + t)
  {
  }

  /** A parameter group is not mistaken for a catch-all by the first pass. */
  lemma ParamSurvivesFirstPass(n: string, b: string)
    requires WellFormedSegment(Param(n))
    ensures ReplaceGroups("[" + n + "]" + b, "[...", "**:") == "[" + n + "]" + ReplaceGroups(b, "[...", "**:")
  {
    var s := "[" + n + "]" + b;
    if |s| >= 4 {
      if |n| >= 3 {
        assert s[1..4] == n[..3];
        assert s[..4][1..] == s[1..4];
      } else {
        assert s[1 + |n|] == ']';
        assert s[..4][1 + |n|] == s[1 + |n|];
      }
    }
    assert !StartsWith(s, "[...");
    assert s[1..] == n + "]" + b;
    PlainHasNoOpen(n);
    PassThrough(n + "]", b, "[...", "**:");
    assert ReplaceGroups(s, "[...", "**:") == ['['] + ReplaceGroups(s[1..], "[...", "**:");
  }

  /** One segment of the first pass. */
  lemma FirstPassStep(g: Segment, rest: string)
    requires WellFormedSegment(g)
    ensures ReplaceGroups("/" + FileSegment(g) + rest, "[...", "**:")
         == "/" + HalfSegment(g) + ReplaceGroups(rest, "[...", "**:")
  {
    match g
    case Static(t) => StaticStep(t, rest, "[...", "**:");
    case Param(n) => ParamFirstStep(n, rest);
    case CatchAll(n) => CatchAllFirstStep(n, rest);
  }

  lemma ParamFirstStep(n: string, rest: string)
    requires WellFormedSegment(Param(n))
    ensures ReplaceGroups("/" + ("[" + n + "]") + rest, "[...", "**:")
         == "/" + ("[" + n + "]") + ReplaceGroups(rest, "[...", "**:")
  {
    var seg := "[" + n + "]";
    Assoc("/", seg, rest);
    PassThrough("/", seg + rest, "[...", "**:");
    ParamSurvivesFirstPass(n, rest);
    Assoc("/", seg, ReplaceGroups(rest, "[...", "**:"));
  }

  lemma CatchAllFirstStep(n: string, rest: string)
    requires WellFormedSegment(CatchAll(n))
    ensures ReplaceGroups("/" + ("[..." + n + "]") + rest, "[...", "**:")
         == "/" + ("**:" + n) + ReplaceGroups(rest, "[...", "**:")
  {
    var seg := "[..." + n + "]";
    Assoc("/", seg, rest);
    PassThrough("/", seg + rest, "[...", "**:");
    GroupReplaced(n, rest, "[...", "**:");
    Assoc("/", "**:" + n, ReplaceGroups(rest, "[...", "**:"));
  }

  /** A static segment passes through either pass. */
  lemma StaticStep(t: string, rest: string, open: string, repl: string)
    requires Plain(t) && StartsWith(open, "[")
    ensures ReplaceGroups("/" + t + rest, open, repl) == "/" + t + ReplaceGroups(rest, open, repl)
  {
    PlainHasNoOpen(t);
    PassThrough("/" + t, rest, open, repl);
  }

  /** One segment of the second pass. */
  lemma SecondPassStep(g: Segment, rest: string)
    requires WellFormedSegment(g)
    ensures ReplaceGroups("/" + HalfSegment(g) + rest, "[", ":")
         == "/" + RouteSegment(g) + ReplaceGroups(rest, "[", ":")
  {
    match g
    case Static(t) => StaticStep(t, rest, "[", ":");
    case Param(n) => ParamSecondStep(n, rest);
    case CatchAll(n) => CatchAllSecondStep(n, rest);
  }

  lemma ParamSecondStep(n: string, rest: string)
    requires WellFormedSegment(Param(n))
    ensures ReplaceGroups("/" + ("[" + n + "]") + rest, "[", ":")
         == "/" + (":" + n) + ReplaceGroups(rest, "[", ":")
  {
    var seg := "[" + n + "]";
    Assoc("/", seg, rest);
    PassThrough("/", seg + rest, "[", ":");
    GroupReplaced(n, rest, "[", ":");
    Assoc("/", ":" + n, ReplaceGroups(rest, "[", ":"));
  }

  lemma CatchAllSecondStep(n: string, rest: string)
    requires WellFormedSegment(CatchAll(n))
    ensures ReplaceGroups("/" + ("**:" + n) + rest, "[", ":")
         == "/" + ("**:" + n) + ReplaceGroups(rest, "[", ":")
  {
    PlainHasNoOpen(n);
    assert "/" + ("**:" + n) == "/**:" + n;
    PassThrough("/**:" + n, rest, "[", ":");
  }

  /** The first pass turns file spelling into the half-rewritten spelling. */
  lemma {:induction false} FirstPass(segs: seq<Segment>)
    requires WellFormed(segs)
    ensures ReplaceGroups(FilePath(segs), "[...", "**:") == HalfPath(segs)
    decreases |segs|
  {
    if segs != [] {
      assert WellFormedSegment(segs[0]) && WellFormed(segs[1..]);
      FirstPass(segs[1..]);
      FirstPassStep(segs[0], FilePath(segs[1..]));
    }
  }

  /** The second pass turns the half-rewritten spelling into the route spelling. */
  lemma {:induction false} SecondPass(segs: seq<Segment>)
    requires WellFormed(segs)
    ensures ReplaceGroups(HalfPath(segs), "[", ":") == RoutePath(segs)
    decreases |segs|
  {
    if segs != [] {
      assert WellFormedSegment(segs[0]) && WellFormed(segs[1..]);
      SecondPass(segs[1..]);
      SecondPassStep(segs[0], HalfPath(segs[1..]));
    }
  }

  /**
   * Bracket rewriting: `[x]` becomes `:x` and `[...x]` becomes `**:x`, in
   * every segment, so a catch-all never turns into `:...x`.
   */
  lemma RewriteSegments(segs: seq<Segment>)
    requires WellFormed(segs)
    ensures RouteExpression(FilePath(segs)) == RoutePath(segs)
  {
    FirstPass(segs);
    SecondPass(segs);
  }

  lemma {:induction false} FilePathAppend(segs: seq<Segment>, g: Segment)
    ensures FilePath(segs + [g]) == FilePath(segs) + "/" + FileSegment(g)
    decreases |segs|
  {
    if segs != [] {
      assert (segs + [g])[1..] == segs[1..] + [g];
      FilePathAppend(segs[1..], g);
    }
  }

  lemma {:induction false} FilePathEmpty(segs: seq<Segment>)
    ensures FilePath(segs) == "" <==> segs == []
  {
  }

  /** A plain name after a separator ends with `/index` only if it is `index`. */
  lemma StaticEndsWithIndex(w: string, x: string)
    requires Plain(x) && EndsWith(w + "/" + x, "/index")
    ensures x == "index"
  {
    var S := w + "/" + x;
    var start := |S| - 6;
    assert S[|w|] == '/';
    forall k | |w| < k < |S| ensures S[k] != '/' {
      assert S[k] == x[k - |w| - 1];
    }
    assert S[start..] == "/index";
    assert S[start] == '/';
    forall k | start < k < |S| ensures S[k] != '/' {
      assert S[k] == S[start..][k - start];
    }
    assert start == |w|;
    assert x == S[start + 1..];
  }

  /** The last segment decides whether a path ends with `/index`. */
  lemma LastSegmentIndex(w: string, g: Segment)
    requires WellFormedSegment(g)
    ensures EndsWith(w + "/" + FileSegment(g), "/index") <==> g == Static("index")
  {
    var S := w + "/" + FileSegment(g);
    match g
    case Param(n) =>
      assert S[|S| - 1] == ']';
    case CatchAll(n) =>
      assert S[|S| - 1] == ']';
    case Static(x) =>
      if EndsWith(S, "/index") {
        StaticEndsWithIndex(w, x);
      }
      if x == "index" {
        assert S[|S| - 6..] == "/index";
      }
  }

  /** A file path ends with `/index` exactly when its last segment is the static `index`. */
  lemma EndsWithIndex(segs: seq<Segment>)
    requires segs != [] && WellFormedSegment(segs[|segs| - 1])
    ensures EndsWith(FilePath(segs), "/index") <==> segs[|segs| - 1] == Static("index")
    ensures FilePath(segs) == FilePath(segs[..|segs| - 1]) + "/" + FileSegment(segs[|segs| - 1])
  {
    var init, g := segs[..|segs| - 1], segs[|segs| - 1];
    assert segs == init + [g];
    FilePathAppend(init, g);
    LastSegmentIndex(FilePath(init), g);
  }

  /** `slice(|prefix|, -|suffix|)` recovers the middle of `prefix + f + suffix`. */
  lemma SliceMiddle(prefix: string, f: string, suffix: string)
    requires suffix != ""
    ensures Slice(prefix + f + suffix, |prefix|, -|suffix|) == f
  {
    var path := prefix + f + suffix;
    assert path[|prefix|..|prefix| + |f|] == f;
  }

  /** Dropping a final `/index` leaves the path of the route's segments. */
  lemma TrimIndex(segs: seq<Segment>)
    requires WellFormed(segs)
    ensures var f := FilePath(segs);
      (if EndsWith(f, "/index") then f[..|f| - 6] else f) == FilePath(RouteSegments(segs))
  {
    var f := FilePath(segs);
    if segs != [] {
      assert WellFormedSegment(segs[|segs| - 1]);
      EndsWithIndex(segs);
      if EndsWith(f, "/index") {
        var init := segs[..|segs| - 1];
        assert f == FilePath(init) + "/index";
        assert f[..|f| - 6] == FilePath(init);
      }
    }
  }

  /**
   * The url derived for the file `<prefix><file path><suffix>` is the file
   * path without a final `index` segment, and `/` when nothing is left.
   */
  lemma DeriveUrlCorrect(prefix: string, segs: seq<Segment>, suffix: string)
    requires WellFormed(segs) && suffix != ""
    ensures DeriveUrl(prefix + FilePath(segs) + suffix, prefix, suffix)
      == (if RouteSegments(segs) == [] then "/" else FilePath(RouteSegments(segs)))
  {
    SliceMiddle(prefix, FilePath(segs), suffix);
    TrimIndex(segs);
    FilePathEmpty(RouteSegments(segs));
  }

  /**
   * The route registered for the file `<prefix><file path><suffix>` is the
   * file path with brackets rewritten and a final `index` segment dropped,
   * and `/` when nothing is left (a root `index` file).
   */
  lemma DeriveRouteCorrect(prefix: string, segs: seq<Segment>, suffix: string)
    requires WellFormed(segs) && suffix != ""
    ensures RouteExpression(DeriveUrl(prefix + FilePath(segs) + suffix, prefix, suffix)) == ExpectedRoute(segs)
  {
    DeriveUrlCorrect(prefix, segs, suffix);
    var kept := RouteSegments(segs);
    assert WellFormed(kept);
    if kept == [] {
      assert RouteExpression("/") == "/";
    } else {
      RewriteSegments(kept);
    }
  }

  /** A root `index` file is registered as the route `/`. */
  lemma RootIndexIsSlash(prefix: string, suffix: string)
    requires suffix != ""
    ensures RouteExpression(DeriveUrl(prefix + "/index" + suffix, prefix, suffix)) == "/"
  {
    SliceMiddle(prefix, "/index", suffix);
    assert Slice(prefix + "/index" + suffix, |prefix|, -|suffix|)[..0] == "";
    assert RouteExpression("/") == "/";
  }

  /** An empty suffix makes `slice(start, -0)` empty, so every file maps to `/`. */
  lemma EmptySuffixCollapses(code: Injection, path: string)
    requires code.pathSuffix == ""
    ensures DeriveRoute(code, path) == "/"
  {
    assert Slice(path, |code.pathPrefix|, 0) == "";
    assert RouteExpression("/") == "/";
  }
}
