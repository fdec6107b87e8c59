/**
 * Configuration loading and merging (runners/_base/configio.py): the
 * line-oriented fallback YAML parser with its indentation stack, the
 * recursive merge in which the override wins, and the loaders around them.
 *
 * The parser's nested dicts are reached through references kept on its
 * stack. Here each stack frame holds the key path from the root to its dict,
 * and writing into "the current dict" rewrites the root along that path.
 */
module ConfigIO {
  import opened Py

  // ---------------------------------------------------------------------------
  // Scalars

  /** `v.strip('"').strip("'")`: every surrounding double quote, then every surrounding single quote. */
  function StripQuotes(t: string): (r: string)
    ensures r == [] || (r[0] != '\'' && r[|r| - 1] != '\'')
  {
    StripSet(StripSet(t, {'"'}), {'\''})
  }

  /**
   * `parse_scalar`: a case-insensitive true/false becomes a bool; text with a
   * '.' is tried as a float, other text as an int; text neither conversion
   * accepts becomes a string without its surrounding quotes.
   */
  function ParseScalar(v: string): (r: Value)
    ensures r.VBool? || r.VInt? || r.VFloat? || r.VStr?
  {
    var t := Strip(v);
    var low := AsciiLower(t);
    if low == "true" || low == "false" then VBool(low == "true")
    else if '.' in t then
      (if IsFloatLiteral(t) then VFloat(t) else VStr(StripQuotes(t)))
    else if IsIntLiteral(t) then VInt(IntLiteralValue(t))
    else VStr(StripQuotes(t))
  }

  /** Which kind of value `parse_scalar` gives, and for which text. */
  lemma ParseScalarKinds(v: string)
    ensures var r := ParseScalar(v);
      var t := Strip(v);
      && (r.VBool? <==> AsciiLower(t) in {"true", "false"})
      && (r.VBool? ==> (r.b <==> AsciiLower(t) == "true"))
      && (r.VFloat? <==> !r.VBool? && '.' in t && IsFloatLiteral(t))
      && (r.VFloat? ==> r.lexeme == t)
      && (r.VInt? <==> !r.VBool? && '.' !in t && IsIntLiteral(t))
      && (r.VInt? ==> r.i == IntLiteralValue(t))
      && (r.VStr? ==> r.s == StripQuotes(t))
  {
  }

  /** Text made of a sign and digits, which `int()` accepts, parses as that int. */
  lemma ParseScalarIntText(t: string)
    requires IsIntLiteral(t)
    requires forall i :: 0 <= i < |t| ==> t[i] == '-' || t[i] == '+' || IsDigit(t[i])
    ensures ParseScalar(t) == VInt(IntLiteralValue(t))
  {
    var body := if HasSign(t) then t[1..] else t;
    assert t[|t| - 1] == body[|body| - 1];
    StripKeepsTrimmed(t);
    assert '.' !in t;
    assert AsciiLower(t) !in {"true", "false"} by {
      assert AsciiLower(t)[0] == AsciiLowerChar(t[0]);
    }
    ParseScalarKinds(t);
  }

  /** Writing an int as `str()` does and reading it back with `parse_scalar` gives the int. */
  lemma ParseScalarReadsInt(n: int)
    ensures ParseScalar(IntToDecimal(n)) == VInt(n)
  {
    var m: nat := if n < 0 then -n else n;
    var digits := NatToDecimal(m);
    NatToDecimalReadsBack(m);
    var t := IntToDecimal(n);
    assert t == if n < 0 then "-" + digits else digits;
    assert n < 0 ==> t[1..] == digits;
    assert forall i :: 0 <= i < |t| ==> t[i] == '-' || IsDigit(t[i]);
    assert IsIntLiteral(t) && IntLiteralValue(t) == n;
    ParseScalarIntText(t);
  }

  /** Trimmed text that lower-cases to "true" or "false" parses as that bool. */
  lemma ParseScalarBoolText(t: string, b: bool)
    requires t == [] || (!IsWhitespace(t[0]) && !IsWhitespace(t[|t| - 1]))
    requires AsciiLower(t) == if b then "true" else "false"
    ensures ParseScalar(t) == VBool(b)
  {
    StripKeepsTrimmed(t);
  }

  /** `str(b)` read back by `parse_scalar` gives the bool, although Python writes it capitalised. */
  lemma ParseScalarReadsBool(b: bool)
    ensures ParseScalar(PyStr(VBool(b))) == VBool(b)
  {
    var t := PyStr(VBool(b));
    var low := AsciiLower(t);
    if b {
      assert low[0] == 't' && low[1] == 'r' && low[2] == 'u' && low[3] == 'e';
    } else {
      assert low[0] == 'f' && low[1] == 'a' && low[2] == 'l' && low[3] == 's' && low[4] == 'e';
    }
    ParseScalarBoolText(t, b);
  }

  /** Leading whitespace never changes what `parse_scalar` reads. */
  lemma ParseScalarIgnoresPadding(p: string, v: string)
    requires forall i :: 0 <= i < |p| ==> IsWhitespace(p[i])
    ensures ParseScalar(p + v) == ParseScalar(v)
  {
    StripSkipsPadding(p, v);
  }

  /** `p + x + q` starts as `p` does, else as `x`, and ends as `q` does, else as `x`. */
  lemma WrappedEnds(p: string, x: string, q: string)
    requires x != []
    ensures var w := p + x + q;
      && w[0] == (if p == [] then x[0] else p[0])
      && w[|w| - 1] == (if q == [] then x[|x| - 1] else q[|q| - 1])
  {
  }

  /**
   * Every surrounding double quote goes first, then every surrounding single
   * quote: any runs of single quotes inside any runs of double quotes all
   * come off.
   */
  lemma StripQuotesOrder(dq: string, sq: string, x: string, sq': string, dq': string)
    requires forall i :: 0 <= i < |dq| ==> dq[i] == '"'
    requires forall i :: 0 <= i < |dq'| ==> dq'[i] == '"'
    requires forall i :: 0 <= i < |sq| ==> sq[i] == '\''
    requires forall i :: 0 <= i < |sq'| ==> sq'[i] == '\''
    requires x != [] && x[0] !in {'"', '\''} && x[|x| - 1] !in {'"', '\''}
    ensures StripQuotes(dq + sq + x + sq' + dq') == x
  {
    var inner := sq + x + sq';
    assert dq + sq + x + sq' + dq' == dq + inner + dq';
    WrappedEnds(sq, x, sq');
    StripSetUnwraps(dq, inner, dq', {'"'});
    StripSetUnwraps(sq, x, sq', {'\''});
  }

  /** Double quotes inside single quotes stay: only the single quotes come off. */
  lemma StripQuotesKeepsInner(dq: string, sq: string, x: string, sq': string, dq': string)
    requires forall i :: 0 <= i < |dq| ==> dq[i] == '"'
    requires forall i :: 0 <= i < |dq'| ==> dq'[i] == '"'
    requires forall i :: 0 <= i < |sq| ==> sq[i] == '\''
    requires forall i :: 0 <= i < |sq'| ==> sq'[i] == '\''
    requires x != [] && x[0] !in {'"', '\''} && x[|x| - 1] !in {'"', '\''}
    requires sq != [] && sq' != []
    ensures StripQuotes(sq + dq + x + dq' + sq') == dq + x + dq'
  {
    var mid := dq + x + dq';
    var outer := sq + mid + sq';
    assert sq + dq + x + dq' + sq' == outer;
    WrappedEnds(sq, mid, sq');
    assert outer == [] + outer + [];
    StripSetUnwraps([], outer, [], {'"'});
    WrappedEnds(dq, x, dq');
    StripSetUnwraps(sq, mid, sq', {'\''});
  }

  // ---------------------------------------------------------------------------
  // Nested dicts addressed by key paths

  /** `path` leads from `d` through nested dicts only. */
  predicate IsDictPath(d: Dict, path: seq<string>)
    decreases |path|
  {
    path == [] || (path[0] in d && d[path[0]].VMap? && IsDictPath(d[path[0]].m, path[1..]))
  }

  /** The dict reached from `d` along `path`. */
  function DictAt(d: Dict, path: seq<string>): Dict
    requires IsDictPath(d, path)
    decreases |path|
  {
    if path == [] then d else DictAt(d[path[0]].m, path[1..])
  }

  /** `cur[k] = v` where `cur` is the dict at `path`. */
  function PutAt(d: Dict, path: seq<string>, k: string, v: Value): (r: Dict)
    requires IsDictPath(d, path)
    ensures r.Keys == if path == [] then d.Keys + {k} else d.Keys
    decreases |path|
  {
    if path == [] then d[k := v]
    else d[path[0] := VMap(PutAt(d[path[0]].m, path[1..], k, v))]
  }

  /** A dict path cut short is still a dict path. */
  lemma {:induction false} DictPathPrefix(d: Dict, path: seq<string>, q: seq<string>)
    requires IsDictPath(d, path) && q <= path
    ensures IsDictPath(d, q)
    decreases |path|
  {
    if q != [] {
      DictPathPrefix(d[path[0]].m, path[1..], q[1..]);
    }
  }

  /** Writing at `path` keeps `path` a dict path, and the dict there gains exactly the key. */
  lemma {:induction false} PutAtWrites(d: Dict, path: seq<string>, k: string, v: Value)
    requires IsDictPath(d, path)
    ensures IsDictPath(PutAt(d, path, k, v), path)
    ensures DictAt(PutAt(d, path, k, v), path) == DictAt(d, path)[k := v]
    decreases |path|
  {
    if path != [] {
      PutAtWrites(d[path[0]].m, path[1..], k, v);
    }
  }

  /** After `cur[k] = {}` the new empty dict is reachable at `path + [k]`. */
  lemma {:induction false} PutAtNewDict(d: Dict, path: seq<string>, k: string)
    requires IsDictPath(d, path)
    ensures IsDictPath(PutAt(d, path, k, VMap(map[])), path + [k])
    ensures DictAt(PutAt(d, path, k, VMap(map[])), path + [k]) == map[]
    decreases |path|
  {
    if path != [] {
      PutAtNewDict(d[path[0]].m, path[1..], k);
      assert (path + [k])[1..] == path[1..] + [k];
    }
  }

  // ---------------------------------------------------------------------------
  // The fallback parser

  /**
   * A stack entry `(indent, dict)`. The dict of frame `i` is the one reached
   * from the root through the keys of frames `1..i`; the bottom frame's key
   * is unused.
   */
  datatype Frame = Frame(indent: int, key: string)

  datatype LoaderState = LoaderState(root: Dict, stack: seq<Frame>)

  const Init := LoaderState(map[], [Frame(0, "")])

  /** The key path of the top frame's dict. */
  function Path(stack: seq<Frame>): (p: seq<string>)
    requires |stack| >= 1
    ensures |p| == |stack| - 1
    ensures forall j :: 0 <= j < |p| ==> p[j] == stack[j + 1].key
  {
    seq(|stack| - 1, j requires 0 <= j < |stack| - 1 => stack[j + 1].key)
  }

  /**
   * The stack invariant: the bottom frame is `(0, root)`, indents strictly
   * increase upwards, and the top frame's dict is reachable in the root.
   */
  ghost predicate WellFormed(st: LoaderState) {
    && |st.stack| >= 1
    && st.stack[0] == Frame(0, "")
    && (forall i, j :: 0 <= i < j < |st.stack| ==> st.stack[i].indent < st.stack[j].indent)
    && IsDictPath(st.root, Path(st.stack))
  }

  /** `while stack and indent < stack[-1][0]: stack.pop()` */
  function PopFrames(stack: seq<Frame>, indent: int): (r: seq<Frame>)
    ensures r <= stack
    ensures r == [] || indent >= r[|r| - 1].indent
    decreases |stack|
  {
    if |stack| > 0 && indent < stack[|stack| - 1].indent then PopFrames(stack[..|stack| - 1], indent)
    else stack
  }

  /** A non-negative indent never pops the bottom frame `(0, root)`. */
  lemma {:induction false} PopKeepsBottom(stack: seq<Frame>, indent: int)
    requires |stack| >= 1 && stack[0].indent == 0 && indent >= 0
    ensures |PopFrames(stack, indent)| >= 1
    decreases |stack|
  {
    if |stack| > 1 && indent < stack[|stack| - 1].indent {
      PopKeepsBottom(stack[..|stack| - 1], indent);
    }
  }

  /** How one line of the file is read. */
  datatype LineKind = Skip | Entry(indent: nat, key: string, value: string)

  /**
   * A blank line, a comment or a line without ':' is skipped; otherwise the
   * key is the trimmed text before the first ':' and the value the trimmed
   * rest, which may itself contain ':'.
   */
  function Classify(raw: string): (r: LineKind)
    ensures var line := RStrip(raw, {'\n'});
      var s := Strip(line);
      && (r.Skip? <==> s == [] || s[0] == '#' || ':' !in s)
      && (r.Entry? ==> r.indent == LeadingSpaces(line)
                       && r.key == Strip(SplitOnce(s, {':'}).0)
                       && r.value == Strip(SplitOnce(s, {':'}).1))
  {
    var line := RStrip(raw, {'\n'});
    var s := Strip(line);
    if s == [] || s[0] == '#' || ':' !in s then Skip
    else
      var parts := SplitOnce(s, {':'});
      Entry(LeadingSpaces(line), Strip(parts.0), Strip(parts.1))
  }

  /** One iteration of the parser's loop over the file. */
  function Step(st: LoaderState, raw: string): LoaderState
    requires WellFormed(st)
  {
    Apply(st, Classify(raw))
  }

  /** A blank line, a comment line or a line without ':' leaves the parser's state as it was. */
  lemma SkippedLineKeepsState(st: LoaderState, raw: string)
    requires WellFormed(st)
    requires var s := Strip(RStrip(raw, {'\n'})); s == [] || s[0] == '#' || ':' !in s
    ensures Step(st, raw) == st
  {
  }

  /** What a classified line does: pop, then write into the top frame's dict, pushing a new one for an empty value. */
  function Apply(st: LoaderState, line: LineKind): LoaderState
    requires WellFormed(st)
  {
    match line
    case Skip => st
    case Entry(indent, k, v) =>
      PopKeepsBottom(st.stack, indent);
      var stack := PopFrames(st.stack, indent);
      var cur := Path(stack);
      assert cur <= Path(st.stack);
      DictPathPrefix(st.root, Path(st.stack), cur);
      if v == [] then
        LoaderState(PutAt(st.root, cur, k, VMap(map[])), stack + [Frame(indent + 2, k)])
      else
        LoaderState(PutAt(st.root, cur, k, ParseScalar(v)), stack)
  }

  /** Popping keeps the stack invariant and leaves a top frame no deeper than the line. */
  lemma PopKeepsWellFormed(st: LoaderState, indent: nat)
    requires WellFormed(st)
    ensures var popped := PopFrames(st.stack, indent);
      && WellFormed(LoaderState(st.root, popped))
      && popped[|popped| - 1].indent <= indent
  {
    PopKeepsBottom(st.stack, indent);
    var popped := PopFrames(st.stack, indent);
    assert popped == st.stack[..|popped|];
    assert Path(popped) <= Path(st.stack);
    DictPathPrefix(st.root, Path(st.stack), Path(popped));
  }

  /** Writing a scalar, or a new dict pushed two columns deeper, keeps the stack invariant. */
  lemma WriteKeepsWellFormed(st: LoaderState, indent: nat, k: string, v: string)
    requires WellFormed(st) && st.stack[|st.stack| - 1].indent <= indent
    ensures v == [] ==> WellFormed(LoaderState(PutAt(st.root, Path(st.stack), k, VMap(map[])),
                                               st.stack + [Frame(indent + 2, k)]))
    ensures v != [] ==> WellFormed(LoaderState(PutAt(st.root, Path(st.stack), k, ParseScalar(v)), st.stack))
  {
    var cur := Path(st.stack);
    var n := |st.stack|;
    if v == [] {
      PutAtNewDict(st.root, cur, k);
      var stack' := st.stack + [Frame(indent + 2, k)];
      assert Path(stack') == cur + [k];
      assert forall i :: 0 <= i < n ==> stack'[i] == st.stack[i];
      assert forall i :: 0 <= i < n ==> st.stack[i].indent <= st.stack[n - 1].indent;
    } else {
      PutAtWrites(st.root, cur, k, ParseScalar(v));
    }
  }

  /** Every line keeps the stack invariant. */
  lemma ApplyKeepsWellFormed(st: LoaderState, line: LineKind)
    requires WellFormed(st)
    ensures WellFormed(Apply(st, line))
  {
    if line.Entry? {
      var stack := PopFrames(st.stack, line.indent);
      PopKeepsWellFormed(st, line.indent);
      WriteKeepsWellFormed(LoaderState(st.root, stack), line.indent, line.key, line.value);
      if line.value == [] {
        assert Apply(st, line)
            == LoaderState(PutAt(st.root, Path(stack), line.key, VMap(map[])), stack + [Frame(line.indent + 2, line.key)]);
      } else {
        assert Apply(st, line) == LoaderState(PutAt(st.root, Path(stack), line.key, ParseScalar(line.value)), stack);
      }
    }
  }
  /** A key the parser can read back: non-empty, no colon, not a comment, no surrounding whitespace. */
  predicate PlainKey(k: string) {
    && k != []
    && !IsWhitespace(k[0]) && !IsWhitespace(k[|k| - 1])
    && k[0] != '#'
    && forall i :: 0 <= i < |k| ==> k[i] != ':'
  }

  /** A scalar text without surrounding whitespace (possibly empty, which opens a nested dict). */
  predicate PlainValue(v: string) {
    v == [] || (!IsWhitespace(v[0]) && !IsWhitespace(v[|v| - 1]))
  }

  /** The text `"k: v"`, or `"k:"` for an empty value. */
  function EntryText(k: string, v: string): string {
    k + ":" + (if v == [] then "" else " " + v)
  }

  /** The line `"<pad spaces>k: v\n"`. */
  function EntryLine(pad: nat, k: string, v: string): string {
    Spaces(pad) + EntryText(k, v) + "\n"
  }

  lemma EntryTextEnds(k: string, v: string)
    requires PlainKey(k) && PlainValue(v)
    ensures var x := EntryText(k, v);
      && x != [] && !IsWhitespace(x[0]) && !IsWhitespace(x[|x| - 1])
      && x[0] != '#' && x[0] != ' ' && x[|x| - 1] != '\n' && ':' in x
  {
    var x := EntryText(k, v);
    assert x[0] == k[0] && x[|k|] == ':';
    assert x[|x| - 1] == if v == [] then ':' else v[|v| - 1];
  }

  /** The trailing newline and the indent come off, leaving the entry text. */
  lemma EntryLineTrims(pad: nat, k: string, v: string)
    requires PlainKey(k) && PlainValue(v)
    ensures RStrip(EntryLine(pad, k, v), {'\n'}) == Spaces(pad) + EntryText(k, v)
    ensures Strip(Spaces(pad) + EntryText(k, v)) == EntryText(k, v)
    ensures LeadingSpaces(Spaces(pad) + EntryText(k, v)) == pad
  {
    var x := EntryText(k, v);
    var body := Spaces(pad) + x;
    var raw := EntryLine(pad, k, v);
    EntryTextEnds(k, v);
    assert RStrip(raw, {'\n'}) == body by {
      assert raw == body + ['\n'] && raw[..|raw| - 1] == body;
      assert body[|body| - 1] == x[|x| - 1];
    }
    assert Strip(body) == x by {
      StripSkipsPadding(Spaces(pad), x);
      StripKeepsTrimmed(x);
    }
    LeadingSpacesOfPadded(pad, x);
  }

  /** Splitting the entry text at its first colon gives back the key and the value. */
  lemma EntryTextSplits(k: string, v: string)
    requires PlainKey(k) && PlainValue(v)
    ensures ':' in EntryText(k, v)
    ensures Strip(SplitOnce(EntryText(k, v), {':'}).0) == k
    ensures Strip(SplitOnce(EntryText(k, v), {':'}).1) == v
  {
    var tail := if v == [] then "" else " " + v;
    assert EntryText(k, v) == k + [':'] + tail;
    SplitOnceAt(k, ':', tail, {':'});
    StripKeepsTrimmed(k);
    if v != [] {
      StripSkipsPadding(" ", v);
      StripKeepsTrimmed(v);
    }
  }

  /** Splitting a line recovers the indent, key and value it was written from. */
  lemma ClassifyEntryLine(pad: nat, k: string, v: string)
    requires PlainKey(k) && PlainValue(v)
    ensures Classify(EntryLine(pad, k, v)) == Entry(pad, k, v)
  {
    EntryTextEnds(k, v);
    EntryLineTrims(pad, k, v);
    EntryTextSplits(k, v);
  }

  /** What one key line does: the value lands in the dict of the top frame left after popping. */
  lemma ApplyWritesEntry(st: LoaderState, line: LineKind)
    requires WellFormed(st) && line.Entry?
    ensures var popped := PopFrames(st.stack, line.indent);
      |popped| >= 1 && popped[0] == Frame(0, "") && popped[|popped| - 1].indent <= line.indent
    ensures var popped := PopFrames(st.stack, line.indent);
      var r := Apply(st, line);
      var cur := Path(popped);
      && IsDictPath(st.root, cur)
      && IsDictPath(r.root, cur)
      && DictAt(r.root, cur)
         == DictAt(st.root, cur)[line.key := if line.value == [] then VMap(map[]) else ParseScalar(line.value)]
    ensures var popped := PopFrames(st.stack, line.indent);
      Apply(st, line).stack == if line.value == [] then popped + [Frame(line.indent + 2, line.key)] else popped
  {
    PopKeepsWellFormed(st, line.indent);
    var popped := PopFrames(st.stack, line.indent);
    var cur := Path(popped);
    var value := if line.value == [] then VMap(map[]) else ParseScalar(line.value);
    var stack := if line.value == [] then popped + [Frame(line.indent + 2, line.key)] else popped;
    assert Apply(st, line) == LoaderState(PutAt(st.root, cur, line.key, value), stack);
    PutAtWrites(st.root, cur, line.key, value);
  }

  /**
   * Nothing else in the tree changes: any dict that is neither the written
   * one, one of its ancestors, nor inside the written key is the same after
   * `cur[k] = v`.
   */
  lemma {:induction false} PutAtElsewhere(d: Dict, path: seq<string>, k: string, v: Value, q: seq<string>)
    requires IsDictPath(d, path) && IsDictPath(d, q)
    requires !(q <= path) && !(path + [k] <= q)
    ensures IsDictPath(PutAt(d, path, k, v), q) && DictAt(PutAt(d, path, k, v), q) == DictAt(d, q)
    decreases |path|
  {
    var r := PutAt(d, path, k, v);
    assert q != [];
    if path == [] {
      assert [k] <= q <== q[0] == k;
      assert r[q[0]] == d[q[0]];
    } else if q[0] != path[0] {
      assert r[q[0]] == d[q[0]];
    } else {
      assert q == [q[0]] + q[1..] && path == [path[0]] + path[1..];
      assert q <= path <== q[1..] <= path[1..];
      assert path + [k] <= q <== path[1..] + [k] <= q[1..];
      PutAtElsewhere(d[path[0]].m, path[1..], k, v, q[1..]);
    }
  }

  /**
   * An ancestor of the written dict keeps its keys, and every entry but the
   * one leading down to the written dict.
   */
  lemma {:induction false} PutAtAncestor(d: Dict, path: seq<string>, k: string, v: Value, q: seq<string>)
    requires IsDictPath(d, path) && q < path
    ensures IsDictPath(d, q) && IsDictPath(PutAt(d, path, k, v), q)
    ensures DictAt(PutAt(d, path, k, v), q).Keys == DictAt(d, q).Keys
    ensures forall j :: j in DictAt(d, q) && j != path[|q|] ==> DictAt(PutAt(d, path, k, v), q)[j] == DictAt(d, q)[j]
    decreases |path|
  {
    if q != [] {
      PutAtAncestor(d[path[0]].m, path[1..], k, v, q[1..]);
    }
  }

  /** A key line changes only the dict it writes into and, along the path to it, the entries leading there. */
  lemma ApplyLeavesRest(st: LoaderState, line: LineKind)
    requires WellFormed(st) && line.Entry?
    ensures |PopFrames(st.stack, line.indent)| >= 1
    ensures var cur := Path(PopFrames(st.stack, line.indent));
      var r := Apply(st, line);
      forall q :: IsDictPath(st.root, q) && !(q <= cur) && !(cur + [line.key] <= q) ==>
        IsDictPath(r.root, q) && DictAt(r.root, q) == DictAt(st.root, q)
    ensures var cur := Path(PopFrames(st.stack, line.indent));
      var r := Apply(st, line);
      forall n :: 0 <= n < |cur| ==>
        && IsDictPath(st.root, cur[..n]) && IsDictPath(r.root, cur[..n])
        && DictAt(r.root, cur[..n]).Keys == DictAt(st.root, cur[..n]).Keys
        && forall j :: j in DictAt(st.root, cur[..n]) && j != cur[n] ==> DictAt(r.root, cur[..n])[j] == DictAt(st.root, cur[..n])[j]
  {
    PopKeepsWellFormed(st, line.indent);
    var popped := PopFrames(st.stack, line.indent);
    var cur := Path(popped);
    var value := if line.value == [] then VMap(map[]) else ParseScalar(line.value);
    var stack := if line.value == [] then popped + [Frame(line.indent + 2, line.key)] else popped;
    assert Apply(st, line) == LoaderState(PutAt(st.root, cur, line.key, value), stack);
    forall q | IsDictPath(st.root, q) && !(q <= cur) && !(cur + [line.key] <= q)
      ensures IsDictPath(PutAt(st.root, cur, line.key, value), q)
      ensures DictAt(PutAt(st.root, cur, line.key, value), q) == DictAt(st.root, q)
    {
      PutAtElsewhere(st.root, cur, line.key, value, q);
    }
    forall n | 0 <= n < |cur|
      ensures IsDictPath(st.root, cur[..n]) && IsDictPath(PutAt(st.root, cur, line.key, value), cur[..n])
      ensures DictAt(PutAt(st.root, cur, line.key, value), cur[..n]).Keys == DictAt(st.root, cur[..n]).Keys
      ensures forall j :: j in DictAt(st.root, cur[..n]) && j != cur[n] ==>
        DictAt(PutAt(st.root, cur, line.key, value), cur[..n])[j] == DictAt(st.root, cur[..n])[j]
    {
      PutAtAncestor(st.root, cur, line.key, value, cur[..n]);
    }
  }

  /** The parser's loop from a given state over the remaining lines. */
  function Run(lines: seq<string>, st: LoaderState): (r: LoaderState)
    requires WellFormed(st)
    ensures WellFormed(r)
    decreases |lines|
  {
    if lines == [] then st
    else
      ApplyKeepsWellFormed(st, Classify(lines[0]));
      Run(lines[1..], Step(st, lines[0]))
  }

  /** `_simple_yaml_load` on a file given as the lines Python's file iterator yields. */
  function Load(lines: seq<string>): Dict {
    Run(lines, Init).root
  }

  /** The `while stack and indent < stack[-1][0]: stack.pop()` loop. */
  method PopTo(stack: seq<Frame>, indent: int) returns (popped: seq<Frame>)
    ensures popped == PopFrames(stack, indent)
  {
    popped := stack;
    while |popped| > 0 && indent < popped[|popped| - 1].indent
      invariant PopFrames(popped, indent) == PopFrames(stack, indent)
      decreases |popped|
    {
      popped := popped[..|popped| - 1];
    }
  }

  /** The entry half of the loop body: pop to the line's indent, then write `k` into the top frame's dict. */
  method WriteEntry(root: Dict, stack: seq<Frame>, indent: nat, k: string, v: string)
    returns (root': Dict, stack': seq<Frame>)
    requires WellFormed(LoaderState(root, stack))
    ensures LoaderState(root', stack') == Apply(LoaderState(root, stack), Entry(indent, k, v))
  {
    ghost var st := LoaderState(root, stack);
    stack' := PopTo(stack, indent);
    PopKeepsWellFormed(st, indent);
    var cur := Path(stack');
    if v == [] {
      root' := PutAt(root, cur, k, VMap(map[]));
      stack' := stack' + [Frame(indent + 2, k)];
    } else {
      root' := PutAt(root, cur, k, ParseScalar(v));
    }
  }

  /** One pass of the loop body: skip the line, or split it into indent, key and value and write the entry. */
  method LoadLine(root: Dict, stack: seq<Frame>, raw: string) returns (root': Dict, stack': seq<Frame>)
    requires WellFormed(LoaderState(root, stack))
    ensures LoaderState(root', stack') == Step(LoaderState(root, stack), raw)
  {
    root', stack' := root, stack;
    var line := RStrip(raw, {'\n'});
    var s := Strip(line);
    if s == [] || s[0] == '#' {
      assert Classify(raw) == Skip;
      return;
    }
    var indent := LeadingSpaces(line);
    if ':' !in s {
      assert Classify(raw) == Skip;
      return;
    }
    var parts := SplitOnce(s, {':'});
    var k := Strip(parts.0);
    var v := Strip(parts.1);
    assert Classify(raw) == Entry(indent, k, v);
    root', stack' := WriteEntry(root, stack, indent, k, v);
  }

  /** `_simple_yaml_load`, as the source writes it: a loop over the lines that keeps a stack of open dicts. */
  method SimpleYamlLoad(lines: seq<string>) returns (root: Dict)
    ensures root == Load(lines)
  {
    root := map[];
    var stack: seq<Frame> := [Frame(0, "")];
    for n := 0 to |lines|
      invariant WellFormed(LoaderState(root, stack))
      invariant Run(lines[n..], LoaderState(root, stack)) == Run(lines, Init)
    {
      ghost var st := LoaderState(root, stack);
      assert lines[n..][0] == lines[n] && lines[n..][1..] == lines[n + 1..];
      ApplyKeepsWellFormed(st, Classify(lines[n]));
      root, stack := LoadLine(root, stack, lines[n]);
    }
  }

  /** The first line `"a:"` of a file opens a nested dict under `a` at indent 2. */
  lemma LoadOpensDict(a: string)
    requires PlainKey(a)
    ensures WellFormed(Init)
    ensures Step(Init, EntryLine(0, a, "")) == OpenedAt(map[a := VMap(map[])], a)
  {
    ClassifyEntryLine(0, a, "");
    assert PopFrames(Init.stack, 0) == Init.stack;
    assert Path(Init.stack) == [];
  }

  /** The state after a top-level line `"a:"`: the stack holds the root and `a`'s dict. */
  function OpenedAt(root: Dict, a: string): LoaderState {
    LoaderState(root, [Frame(0, ""), Frame(2, a)])
  }

  /** An entry two spaces under the open dict `a` is written into it. */
  lemma LoadWritesChild(root: Dict, a: string, b: string, vb: string)
    requires PlainKey(b) && PlainValue(vb) && vb != []
    requires a in root && root[a].VMap?
    ensures WellFormed(OpenedAt(root, a))
    ensures Step(OpenedAt(root, a), EntryLine(2, b, vb)) == OpenedAt(WriteChild(root, a, b, ParseScalar(vb)), a)
  {
    ClassifyEntryLine(2, b, vb);
    ApplyUnderOpen(root, a, b, vb);
  }

  /** The classified entry at indent 2 under the open dict `a` lands in it and keeps the stack. */
  lemma ApplyUnderOpen(root: Dict, a: string, b: string, vb: string)
    requires vb != [] && a in root && root[a].VMap?
    ensures WellFormed(OpenedAt(root, a))
    ensures Apply(OpenedAt(root, a), Entry(2, b, vb)) == OpenedAt(WriteChild(root, a, b, ParseScalar(vb)), a)
  {
    var stack := [Frame(0, ""), Frame(2, a)];
    assert Path(stack) == [a];
    assert IsDictPath(root, [a]) by { assert [a][1..] == []; }
    assert PopFrames(stack, 2) == stack;
    assert [a][1..] == [];
    assert PutAt(root, [a], b, ParseScalar(vb)) == WriteChild(root, a, b, ParseScalar(vb));
    assert Apply(OpenedAt(root, a), Entry(2, b, vb)) == LoaderState(PutAt(root, [a], b, ParseScalar(vb)), stack);
  }

  /** An entry one space deep pops the open dict `a` and is written into the root. */
  lemma LoadPopsToRoot(root: Dict, a: string, b: string, vb: string)
    requires PlainKey(b) && PlainValue(vb) && vb != []
    requires a in root && root[a].VMap?
    ensures WellFormed(OpenedAt(root, a))
    ensures Step(OpenedAt(root, a), EntryLine(1, b, vb)) == LoaderState(root[b := ParseScalar(vb)], [Frame(0, "")])
  {
    var stack := [Frame(0, ""), Frame(2, a)];
    assert Path(stack) == [a];
    assert IsDictPath(root, [a]) by { assert [a][1..] == []; }
    ClassifyEntryLine(1, b, vb);
    assert PopFrames(stack, 1) == [Frame(0, "")];
    assert Path([Frame(0, "")]) == [];
  }

  /** The loop over lines is the steps one after the other. */
  lemma RunCons(line: string, rest: seq<string>, st: LoaderState)
    requires WellFormed(st)
    ensures WellFormed(Step(st, line))
    ensures Run([line] + rest, st) == Run(rest, Step(st, line))
  {
    ApplyKeepsWellFormed(st, Classify(line));
    assert ([line] + rest)[1..] == rest;
  }

  /** The root after writing `b: x` into the dict at key `a`. */
  function WriteChild(root: Dict, a: string, b: string, x: Value): Dict
    requires a in root && root[a].VMap?
  {
    root[a := VMap(root[a].m[b := x])]
  }

  /** Two entries under the open dict `a` are both written into it, the stack unchanged. */
  lemma LoadWritesChildren(root: Dict, a: string, b: string, vb: string, c: string, vc: string)
    requires a in root && root[a].VMap?
    requires PlainKey(b) && PlainKey(c)
    requires PlainValue(vb) && PlainValue(vc) && vb != [] && vc != []
    ensures WellFormed(OpenedAt(root, a))
    ensures var r2 := WriteChild(root, a, b, ParseScalar(vb));
      Run([EntryLine(2, b, vb), EntryLine(2, c, vc)], OpenedAt(root, a))
      == OpenedAt(WriteChild(r2, a, c, ParseScalar(vc)), a)
  {
    var l2, l3 := EntryLine(2, b, vb), EntryLine(2, c, vc);
    var r2 := WriteChild(root, a, b, ParseScalar(vb));
    LoadWritesChild(root, a, b, vb);
    LoadWritesChild(r2, a, c, vc);
    assert [l2, l3] == [l2] + [l3] && [l3] == [l3] + [];
    RunCons(l2, [l3], OpenedAt(root, a));
    RunCons(l3, [], OpenedAt(r2, a));
  }

  /**
   * A key with an empty value followed by two entries indented two spaces
   * deeper ("a:\n  b: 1\n  c: true\n") gives a nested dict holding both.
   */
  lemma LoadNested(a: string, b: string, vb: string, c: string, vc: string)
    requires PlainKey(a) && PlainKey(b) && PlainKey(c)
    requires PlainValue(vb) && PlainValue(vc) && vb != [] && vc != []
    ensures Load([EntryLine(0, a, ""), EntryLine(2, b, vb), EntryLine(2, c, vc)])
         == map[a := VMap(map[b := ParseScalar(vb), c := ParseScalar(vc)])]
  {
    var l1 := EntryLine(0, a, "");
    var root := map[a := VMap(map[])];
    LoadOpensDict(a);
    LoadWritesChildren(root, a, b, vb, c, vc);
    RunCons(l1, [EntryLine(2, b, vb), EntryLine(2, c, vc)], Init);
    WriteTwoChildren(a, b, ParseScalar(vb), c, ParseScalar(vc));
  }

  lemma WriteTwoChildren(a: string, b: string, x: Value, c: string, y: Value)
    ensures var root := map[a := VMap(map[])];
      WriteChild(WriteChild(root, a, b, x), a, c, y) == map[a := VMap(map[b := x, c := y])]
  {
  }

  /**
   * The parser assumes children sit exactly two spaces deeper: a child
   * indented by one space pops the parent's frame and lands in the root.
   */
  lemma LoadOneSpaceChild(a: string, b: string, vb: string)
    requires PlainKey(a) && PlainKey(b) && PlainValue(vb) && vb != []
    ensures Load([EntryLine(0, a, ""), EntryLine(1, b, vb)])
         == map[a := VMap(map[])][b := ParseScalar(vb)]
  {
    var l1, l2 := EntryLine(0, a, ""), EntryLine(1, b, vb);
    var s1 := OpenedAt(map[a := VMap(map[])], a);
    LoadOpensDict(a);
    LoadPopsToRoot(s1.root, a, b, vb);
    RunTwo(l1, l2, Init, s1, LoaderState(s1.root[b := ParseScalar(vb)], [Frame(0, "")]));
  }

  /** Two lines, one step each. */
  lemma RunTwo(l1: string, l2: string, st: LoaderState, s1: LoaderState, s2: LoaderState)
    requires WellFormed(st) && Step(st, l1) == s1
    requires WellFormed(s1) && Step(s1, l2) == s2
    ensures Run([l1, l2], st) == s2
  {
    assert [l1, l2] == [l1] + [l2] && [l2] == [l2] + [];
    RunCons(l1, [l2], st);
    RunCons(l2, [], s1);
  }

  // ---------------------------------------------------------------------------
  // deep_merge

  /**
   * The merge as a reference definition: every key of either side; where the
   * override has the key, its value wins unless both values are dicts, which
   * are merged recursively; keys only in `base` keep their value.
   */
  function Merged(base: Dict, override: Dict): Dict
    decreases VMap(override)
  {
    map k | k in base.Keys + override.Keys ::
      if k in override then
        (if override[k].VMap? && k in base && base[k].VMap?
         then VMap(Merged(base[k].m, override[k].m))
         else override[k])
      else base[k]
  }

  /** `override or {}` */
  function OrEmpty(override: Option<Dict>): Dict {
    if override.Some? then override.value else map[]
  }

  /** `deep_merge(base, override)`: copy `base`, then assign each override key in turn. */
  method DeepMerge(base: Dict, override: Option<Dict>) returns (out: Dict)
    ensures out == Merged(base, OrEmpty(override))
    ensures out.Keys == base.Keys + OrEmpty(override).Keys
    decreases VMap(OrEmpty(override))
  {
    var ov := OrEmpty(override);
    out := base;
    var pending := ov.Keys;
    while pending != {}
      invariant pending <= ov.Keys
      invariant out.Keys == base.Keys + (ov.Keys - pending)
      invariant forall k :: k in out && k !in pending ==> out[k] == Merged(base, ov)[k]
      invariant forall k :: k in pending && k in base ==> out[k] == base[k]
      decreases pending
    {
      var k :| k in pending;
      var v := ov[k];
      if v.VMap? && k in out && out[k].VMap? {
        var sub := DeepMerge(out[k].m, Some(v.m));
        out := out[k := VMap(sub)];
      } else {
        out := out[k := v];
      }
      pending := pending - {k};
    }
  }

  /** The merge laws, key by key. */
  lemma MergedLaws(base: Dict, override: Dict)
    ensures Merged(base, override).Keys == base.Keys + override.Keys
    ensures forall k :: k in base && k !in override ==> Merged(base, override)[k] == base[k]
    ensures forall k :: k in override && !(k in base && base[k].VMap? && override[k].VMap?)
                        ==> Merged(base, override)[k] == override[k]
    ensures forall k :: k in override && k in base && base[k].VMap? && override[k].VMap?
                        ==> Merged(base, override)[k] == VMap(Merged(base[k].m, override[k].m))
  {
  }

  /** A missing or empty override leaves `base` as it was. */
  lemma MergeEmptyOverride(base: Dict, override: Option<Dict>)
    requires override == None || override == Some(map[])
    ensures Merged(base, OrEmpty(override)) == base
  {
    assert Merged(base, OrEmpty(override)).Keys == base.Keys;
  }

  /** Merging a dict with itself gives the dict back. */
  lemma {:induction false} MergeIdempotent(d: Dict)
    ensures Merged(d, d) == d
    decreases VMap(d)
  {
    forall k | k in d
      ensures Merged(d, d)[k] == d[k]
    {
      if d[k].VMap? { MergeIdempotent(d[k].m); }
    }
  }

  /**
   * `b` never puts a dict where `a` has a non-dict: the condition under which
   * merging layers one at a time equals merging the merged layers.
   */
  ghost predicate Compatible(a: Dict, b: Dict)
    decreases VMap(a)
  {
    forall k :: k in a && k in b && b[k].VMap? ==> a[k].VMap? && Compatible(a[k].m, b[k].m)
  }

  /** Applying override `a` then override `b` equals applying `a` merged with `b`, for compatible layers. */
  lemma {:induction false} MergeAssociative(base: Dict, a: Dict, b: Dict)
    requires Compatible(a, b)
    ensures Merged(Merged(base, a), b) == Merged(base, Merged(a, b))
    decreases VMap(a)
  {
    var lhs := Merged(Merged(base, a), b);
    var rhs := Merged(base, Merged(a, b));
    assert lhs.Keys == rhs.Keys;
    forall k | k in lhs
      ensures lhs[k] == rhs[k]
    {
      if k in b && b[k].VMap? && k in a && a[k].VMap? && k in base && base[k].VMap? {
        MergeAssociative(base[k].m, a[k].m, b[k].m);
      }
    }
  }

  /** Without compatibility the two orders differ: a scalar between two dicts cuts the merge. */
  lemma MergeNotAssociativeExample()
    ensures var base := map["x" := VMap(map["p" := VInt(1)])];
      var a := map["x" := VInt(5)];
      var b := map["x" := VMap(map["q" := VInt(2)])];
      && Merged(Merged(base, a), b) == map["x" := VMap(map["q" := VInt(2)])]
      && Merged(base, Merged(a, b)) == map["x" := VMap(map["p" := VInt(1), "q" := VInt(2)])]
  {
    var base := map["x" := VMap(map["p" := VInt(1)])];
    var a := map["x" := VInt(5)];
    var b := map["x" := VMap(map["q" := VInt(2)])];
    var ba, ab := Merged(base, a), Merged(a, b);
    assert ba.Keys == {"x"} && ba["x"] == VInt(5);
    assert ba == a;
    assert ab.Keys == {"x"} && ab["x"] == b["x"];
    assert ab == b;
    var inner := Merged(map["p" := VInt(1)], map["q" := VInt(2)]);
    assert inner.Keys == {"p", "q"} && inner["p"] == VInt(1) && inner["q"] == VInt(2);
    assert inner == map["p" := VInt(1), "q" := VInt(2)];
  }

  // ---------------------------------------------------------------------------
  // Loaders

  /**
   * A YAML file as the loader sees it: its lines for the fallback parser,
   * and what `yaml.safe_load` gave (`obj or {}`), or None when PyYAML is
   * missing or raised.
   */
  datatype YamlFile = YamlFile(lines: seq<string>, safeLoad: Option<Dict>)

  /** `load_yaml(path)`: a missing file is {}; otherwise PyYAML's result, or the fallback parser's. */
  function LoadYaml(files: map<string, YamlFile>, path: string): (r: Dict)
    ensures path !in files ==> r == map[]
    ensures path in files && files[path].safeLoad.None? ==> r == Load(files[path].lines)
  {
    if path !in files then map[]
    else if files[path].safeLoad.Some? then files[path].safeLoad.value
    else Load(files[path].lines)
  }

  /**
   * `load_json_override(s)`: the empty string gives {}; other text is what
   * `json.loads` decodes it to (None for JSON null), or the error it raises.
   */
  function LoadJsonOverride(s: string, decoded: Result<Option<Dict>>): (r: Result<Option<Dict>>)
    ensures s == "" ==> r == Ok(Some(map[]))
    ensures s != "" ==> r == decoded
  {
    if s == "" then Ok(Some(map[])) else decoded
  }

  /** An empty override string leaves the configuration unchanged. */
  lemma EmptyJsonOverrideKeepsConfig(base: Dict, decoded: Result<Option<Dict>>)
    ensures LoadJsonOverride("", decoded).Ok?
    ensures Merged(base, OrEmpty(LoadJsonOverride("", decoded).value)) == base
  {
    MergeEmptyOverride(base, Some(map[]));
  }
}
