/** Values and Python semantics shared by every stage of the pipeline:
    parsed JSON documents, the exceptions the stages raise, the oracles that
    stand for the language-model provider, `json.loads` and `compile`, and
    the string operations (`str.strip`, substring search) the stages use. */
module Common {

  datatype Option<T> = None | Some(value: T)

  /** A parsed JSON document, as `json.loads` returns it. Only the kind of a
      number matters to the pipeline, so numbers are integers here. */
  datatype Json =
    | JNull
    | JBool(b: bool)
    | JNum(n: int)
    | JStr(s: string)
    | JArr(items: seq<Json>)
    | JObj(fields: map<string, Json>)

  /** The exceptions that can leave a stage. */
  datatype Exc =
    | ValueError(msg: string)
    | KeyError(key: string)
    | TypeError(msg: string)
    | AttributeError(msg: string)
    | JsonDecodeError(msg: string)
    | ProviderError(msg: string)

  /** `str(e)`: a KeyError prints its key quoted, every other exception its message. */
  function Message(e: Exc): string
  {
    match e
    case KeyError(k) => "'" + k + "'"
    case ValueError(m) => m
    case TypeError(m) => m
    case AttributeError(m) => m
    case JsonDecodeError(m) => m
    case ProviderError(m) => m
  }

  /** A Python call either returns a value or raises. */
  datatype Outcome<T> = Returned(value: T) | Raised(exc: Exc)

  /** One answer of the language-model provider: text, or the exception
      `generate` raised (rate limit, quota, transport, ...). */
  datatype Reply = Answer(text: string) | Fault(error: string)

  /** The provider as an oracle: the reply to the `k`-th call (from 0) of a
      stage, made with the given prompt. */
  type Provider = (nat, string) -> Reply

  /** What `json.loads` makes of a text. */
  datatype Parsed = Doc(value: Json) | DecodeError(msg: string)
  type Decoder = string -> Parsed

  /** What Python's `compile(code, '<string>', 'exec')` makes of a text. */
  datatype CompileResult = Compiles | SyntaxError(msg: string)
  type Compiler = string -> CompileResult

  /** The record of one stage invocation: its outcome and the prompts it
      sent to the provider, in order (one per provider call). */
  datatype StageRun<T> = StageRun(out: Outcome<T>, prompts: seq<string>)

  /** A stage run preceded by the prompts sent on earlier attempts. */
  function Preceded<T>(sent: seq<string>, run: StageRun<T>): StageRun<T>
  {
    StageRun(run.out, sent + run.prompts)
  }

  /** Prompts sent earlier can be taken one at a time. */
  lemma PrecededAssoc<T>(sent: seq<string>, prompt: string, run: StageRun<T>)
    ensures Preceded(sent, Preceded([prompt], run)) == Preceded(sent + [prompt], run)
  {
    assert sent + ([prompt] + run.prompts) == sent + [prompt] + run.prompts;
  }

  /** The agents `get_prompt` holds a template for. */
  const PromptTemplates: set<string> := {"logician", "director", "engineer", "fixer"}

  /** `get_prompt(agent, ...)`: the rendered template (its text is not
      modelled and arrives as `rendered`), or a ValueError for an agent
      without a template. */
  function GetPrompt(templates: set<string>, agent: string, rendered: string): (r: Outcome<string>)
    ensures r.Returned? <==> agent in templates
    ensures r.Returned? ==> r.value == rendered
    ensures r.Raised? ==> r.exc == ValueError("Unknown agent: " + agent)
  {
    if agent in templates then Returned(rendered) else Raised(ValueError("Unknown agent: " + agent))
  }

  // ---------------------------------------------------------------------
  // Python operators on parsed JSON values
  // ---------------------------------------------------------------------

  function TypeName(j: Json): string
  {
    match j
    case JNull => "NoneType"
    case JBool(_) => "bool"
    case JNum(_) => "int"
    case JStr(_) => "str"
    case JArr(_) => "list"
    case JObj(_) => "dict"
  }

  /** `key in j`: key lookup on a dict, element test on a list, substring
      test on a str; a TypeError on anything else. */
  function Has(j: Json, key: string): (r: Outcome<bool>)
    ensures r.Raised? <==> !(j.JObj? || j.JArr? || j.JStr?)
    ensures j.JObj? ==> r == Returned(key in j.fields)
  {
    match j
    case JObj(f) => Returned(key in f)
    case JArr(xs) => Returned(JStr(key) in xs)
    case JStr(s) => Returned(Contains(s, key))
    case _ => Raised(TypeError("argument of type '" + TypeName(j) + "' is not iterable"))
  }

  /** `j[key]` with a string key. */
  function Subscript(j: Json, key: string): (r: Outcome<Json>)
    ensures r.Returned? <==> j.JObj? && key in j.fields
    ensures r.Returned? ==> r.value == j.fields[key]
  {
    match j
    case JObj(f) => if key in f then Returned(f[key]) else Raised(KeyError(key))
    case JArr(_) => Raised(TypeError("list indices must be integers or slices, not str"))
    case JStr(_) => Raised(TypeError("string indices must be integers, not 'str'"))
    case _ => Raised(TypeError("'" + TypeName(j) + "' object is not subscriptable"))
  }

  /** `len(j[key])`. */
  function LenOf(j: Json, key: string): (r: Outcome<nat>)
    ensures r.Returned? <==>
      j.JObj? && key in j.fields && (j.fields[key].JStr? || j.fields[key].JArr? || j.fields[key].JObj?)
    ensures j.JObj? && key !in j.fields ==> r == Raised(KeyError(key))
  {
    match Subscript(j, key)
    case Raised(e) => Raised(e)
    case Returned(v) => Len(v)
  }

  /** `len(j)`. */
  function Len(j: Json): (r: Outcome<nat>)
    ensures r.Returned? <==> (j.JStr? || j.JArr? || j.JObj?)
  {
    match j
    case JStr(s) => Returned(|s|)
    case JArr(xs) => Returned(|xs|)
    case JObj(f) => Returned(|f|)
    case _ => Raised(TypeError("object of type '" + TypeName(j) + "' has no len()"))
  }

  // ---------------------------------------------------------------------
  // Strings
  // ---------------------------------------------------------------------

  /** `c.isspace()`, which is also what `\s` matches in a `str` pattern. */
  predicate IsSpace(c: char)
  {
    var n := c as int;
    n == 0x20 || 0x09 <= n <= 0x0D || 0x1C <= n <= 0x1F || n == 0x85 || n == 0xA0
    || n == 0x1680 || 0x2000 <= n <= 0x200A || n == 0x2028 || n == 0x2029
    || n == 0x202F || n == 0x205F || n == 0x3000
  }

  predicate IsBlank(s: string)
  {
    forall i :: 0 <= i < |s| ==> IsSpace(s[i])
  }

  /** The first position at or after `i` that does not hold whitespace,
      or `|s|`. */
  function SkipSpace(s: string, i: nat): (n: nat)
    requires i <= |s|
    ensures i <= n <= |s|
    ensures forall k :: i <= k < n ==> IsSpace(s[k])
    ensures n < |s| ==> !IsSpace(s[n])
    decreases |s| - i
  {
    if i == |s| || !IsSpace(s[i]) then i else SkipSpace(s, i + 1)
  }

  /** The end of `s[lo..j]` once its trailing whitespace is dropped. */
  function BackSpace(s: string, lo: nat, j: nat): (n: nat)
    requires lo <= j <= |s|
    ensures lo <= n <= j
    ensures forall k :: n <= k < j ==> IsSpace(s[k])
    ensures lo < n ==> !IsSpace(s[n - 1])
    decreases j
  {
    if j == lo || !IsSpace(s[j - 1]) then j else BackSpace(s, lo, j - 1)
  }

  /** Where `s.strip()` starts in `s`: after the leading whitespace. */
  function StripStart(s: string): nat
  {
    SkipSpace(s, 0)
  }

  /** Where `s.strip()` ends in `s`: before the trailing whitespace. */
  function StripEnd(s: string): nat
  {
    BackSpace(s, StripStart(s), |s|)
  }

  /** `s.strip()`. */
  function Strip(s: string): (r: string)
    ensures |r| <= |s|
    ensures r == [] || (!IsSpace(r[0]) && !IsSpace(r[|r| - 1]))
    ensures r == [] <==> IsBlank(s)
  {
    var start := StripStart(s);
    var end := StripEnd(s);
    assert end == start ==> IsBlank(s) by {
      if end == start {
        forall k | 0 <= k < |s| ensures IsSpace(s[k]) {
        }
      }
    }
    s[start..end]
  }

  /** Any position meeting the description of the start of the stripped
      text is that start. */
  lemma StripStartUnique(s: string, a: nat)
    requires a <= |s|
    requires forall k :: 0 <= k < a ==> IsSpace(s[k])
    requires a < |s| ==> !IsSpace(s[a])
    ensures StripStart(s) == a
  {
  }

  /** Any position meeting the description of the end of the stripped text
      is that end. */
  lemma StripEndUnique(s: string, b: nat)
    requires StripStart(s) <= b <= |s|
    requires forall k :: b <= k < |s| ==> IsSpace(s[k])
    requires StripStart(s) < b ==> !IsSpace(s[b - 1])
    ensures StripEnd(s) == b
  {
  }

  /** Stripping already stripped text changes nothing. */
  lemma StripStripped(s: string)
    requires s == [] || (!IsSpace(s[0]) && !IsSpace(s[|s| - 1]))
    ensures Strip(s) == s
  {
    if s != [] {
      StripStartUnique(s, 0);
      StripEndUnique(s, |s|);
      assert s[0..|s|] == s;
    }
  }

  /** Whitespace around a text does not survive `strip`. */
  lemma StripPadded(pre: string, s: string, post: string)
    requires IsBlank(pre) && IsBlank(post)
    ensures Strip(pre + s + post) == Strip(s)
  {
    StripBlankPrefix(pre, s + post);
    assert pre + s + post == pre + (s + post);
    StripBlankSuffix(s, post);
  }

  lemma {:induction false} StripBlankPrefix(pre: string, s: string)
    requires IsBlank(pre)
    ensures Strip(pre + s) == Strip(s)
  {
    if pre != [] {
      assert (pre + s)[1..] == pre[1..] + s;
      StripDropsFirst(pre + s);
      StripBlankPrefix(pre[1..], s);
    } else {
      assert pre + s == s;
    }
  }

  lemma {:induction false} StripBlankSuffix(s: string, post: string)
    requires IsBlank(post)
    ensures Strip(s + post) == Strip(s)
  {
    if post != [] {
      var shorter := post[..|post| - 1];
      var whole := s + post;
      assert whole[..|whole| - 1] == s + shorter;
      assert whole[|whole| - 1] == post[|post| - 1];
      assert IsBlank(shorter) by {
        forall i | 0 <= i < |shorter| ensures IsSpace(shorter[i]) {
          assert shorter[i] == post[i];
        }
      }
      StripDropsLast(whole);
      StripBlankSuffix(s, shorter);
    } else {
      assert s + post == s;
    }
  }

  lemma StripDropsFirst(s: string)
    requires s != [] && IsSpace(s[0])
    ensures Strip(s) == Strip(s[1..])
  {
    var t := s[1..];
    assert forall k :: 0 <= k < |t| ==> t[k] == s[k + 1];
    var start, end := StripStart(s), StripEnd(s);
    assert 1 <= start;
    StripStartUnique(t, start - 1);
    StripEndUnique(t, end - 1) by {
      if start < end {
        assert t[end - 2] == s[end - 1];
      }
    }
    assert forall k :: start - 1 <= k < end - 1 ==> t[k] == s[k + 1];
    assert t[start - 1..end - 1] == s[start..end];
  }

  lemma StripDropsLast(s: string)
    requires s != [] && IsSpace(s[|s| - 1])
    ensures Strip(s) == Strip(s[..|s| - 1])
  {
    var t := s[..|s| - 1];
    assert forall k :: 0 <= k < |t| ==> t[k] == s[k];
    var start, end := StripStart(s), StripEnd(s);
    if start == |s| {
      StripStartUnique(t, |t|);
    } else {
      StripStartUnique(t, start);
      assert end <= |t|;
      StripEndUnique(t, end);
      assert t[start..end] == s[start..end];
    }
  }

  /** `pat` occurs in `s` at position `i`. */
  predicate OccursAt(s: string, pat: string, i: nat)
  {
    i + |pat| <= |s| && s[i..i + |pat|] == pat
  }

  /** The first position at or after `from` where `pat` occurs in `s`. */
  function IndexFrom(s: string, pat: string, from: nat): (r: Option<nat>)
    requires from <= |s|
    ensures r.Some? ==> from <= r.value && OccursAt(s, pat, r.value)
    ensures r.Some? ==> forall j :: from <= j < r.value ==> !OccursAt(s, pat, j)
    ensures r.None? ==> forall j :: from <= j <= |s| ==> !OccursAt(s, pat, j)
    decreases |s| - from
  {
    if OccursAt(s, pat, from) then Some(from)
    else if from == |s| then None
    else IndexFrom(s, pat, from + 1)
  }

  /** `s.find(pat)`, with None for -1. */
  function IndexOf(s: string, pat: string): (r: Option<nat>)
    ensures r.Some? ==> OccursAt(s, pat, r.value)
    ensures r.Some? ==> forall j :: 0 <= j < r.value ==> !OccursAt(s, pat, j)
    ensures r.None? ==> forall j :: 0 <= j <= |s| ==> !OccursAt(s, pat, j)
  {
    IndexFrom(s, pat, 0)
  }

  /** `pat in s`. */
  predicate Contains(s: string, pat: string)
  {
    IndexOf(s, pat).Some?
  }

  const Fence := "```"

  /** The text between the first occurrence of `open` and the next fence
      after it, when both exist. For the patterns the stages use (an opening
      fence, a lazy body, a closing fence), the leftmost regular-expression
      match starts at the first occurrence of `open`: if no fence follows
      that occurrence, none follows any later one either. */
  function FencedBlock(text: string, open: string): (r: Option<string>)
    ensures r.Some? <==> Contains(text, open) && Contains(text[IndexOf(text, open).value + |open|..], Fence)
    ensures r.Some? ==>
      var start := IndexOf(text, open).value + |open|;
      && start + |r.value| <= |text|
      && text[start..start + |r.value|] == r.value
      && OccursAt(text, Fence, start + |r.value|)
      && !Contains(r.value, Fence)
  {
    match IndexOf(text, open)
    case None => None
    case Some(p) =>
      var rest := text[p + |open|..];
      match IndexOf(rest, Fence)
      case None => None
      case Some(q) =>
        assert !Contains(rest[..q], Fence) by {
          forall j | 0 <= j <= q ensures !OccursAt(rest[..q], Fence, j) {
            if j + 3 <= q {
              assert rest[..q][j..j + 3] == rest[j..j + 3];
              assert !OccursAt(rest, Fence, j);
            }
          }
        }
        assert text[p + |open|..p + |open| + q] == rest[..q];
        assert text[p + |open| + q..p + |open| + q + 3] == rest[q..q + 3];
        Some(rest[..q])
  }

  /** An occurrence is found by the search. */
  lemma OccursContains(s: string, pat: string, i: nat)
    requires OccursAt(s, pat, i)
    ensures Contains(s, pat) && IndexOf(s, pat).value <= i
  {
  }

  /** An occurrence of `pat` is an occurrence of each of its prefixes. */
  lemma PrefixOccurs(s: string, pat: string, pre: string, i: nat)
    requires OccursAt(s, pat, i) && |pre| <= |pat| && pat[..|pre|] == pre
    ensures OccursAt(s, pre, i)
  {
    assert s[i..i + |pre|] == s[i..i + |pat|][..|pre|];
  }

  /** An occurrence at or after `k` is an occurrence in the suffix from `k`. */
  lemma SuffixOccurs(s: string, pat: string, k: nat, i: nat)
    requires k <= i && OccursAt(s, pat, i)
    ensures OccursAt(s[k..], pat, i - k)
  {
    assert s[k..][i - k..i - k + |pat|] == s[i..i + |pat|];
  }

  /** A slice of a fence-free text is fence-free. */
  lemma SliceFenceFree(s: string, a: nat, b: nat)
    requires a <= b <= |s| && !Contains(s, Fence)
    ensures !Contains(s[a..b], Fence)
  {
    forall j | 0 <= j <= b - a
      ensures !OccursAt(s[a..b], Fence, j)
    {
      if j + 3 <= b - a {
        var w := s[a..b][j..j + 3];
        assert w[0] == s[a + j] && w[1] == s[a + j + 1] && w[2] == s[a + j + 2];
        assert w == s[a + j..a + j + 3];
        assert !OccursAt(s, Fence, a + j);
      }
    }
  }

  /** Stripping cannot create a fence. */
  lemma StripFenceFree(s: string)
    requires !Contains(s, Fence)
    ensures !Contains(Strip(s), Fence)
  {
    SliceFenceFree(s, StripStart(s), StripEnd(s));
  }

  /** A body without fences, wrapped in `open` and a closing fence on its own
      line, is found again by the fence search. */
  lemma FenceRoundTrip(open: string, body: string)
    requires !Contains(body, Fence)
    ensures FencedBlock(open + body + "\n```", open) == Some(body + "\n")
  {
    var text := open + body + "\n```";
    assert OccursAt(text, open, 0) by { assert text[0..|open|] == open; }
    var rest := text[|open|..];
    assert rest == body + "\n```";
    ClosingFence(body);
    assert rest[..|body| + 1] == body + "\n";
  }

  /** As `FenceRoundTrip`, after a prefix in which no occurrence of `open`
      starts. */
  lemma FenceRoundTripAfter(pre: string, open: string, body: string)
    requires !Contains(body, Fence)
    requires forall j :: 0 <= j < |pre| ==> !OccursAt(pre + open + body + "\n```", open, j)
    ensures FencedBlock(pre + open + body + "\n```", open) == Some(body + "\n")
  {
    var text := pre + open + body + "\n```";
    assert OccursAt(text, open, |pre|) by { assert text[|pre|..|pre| + |open|] == open; }
    var rest := text[|pre| + |open|..];
    assert rest == body + "\n```";
    ClosingFence(body);
    assert rest[..|body| + 1] == body + "\n";
  }

  /** A line break in front of a fence-free text keeps it fence-free. */
  lemma NewlineFenceFree(s: string)
    requires !Contains(s, Fence)
    ensures !Contains("\n" + s, Fence)
  {
    var t := "\n" + s;
    forall j | 0 <= j <= |t| ensures !OccursAt(t, Fence, j) {
      if j == 0 && 3 <= |t| {
        assert t[0..3][0] == '\n';
      } else if 1 <= j && j + 3 <= |t| {
        assert t[j..j + 3] == s[j - 1..j + 2];
        assert !OccursAt(s, Fence, j - 1);
      }
    }
  }

  /** A fence occurs exactly where three backquotes stand in a row. */
  lemma FenceChars(s: string, k: nat)
    requires k + 3 <= |s|
    ensures OccursAt(s, Fence, k) <==> s[k] == '`' && s[k + 1] == '`' && s[k + 2] == '`'
  {
    if s[k] == '`' && s[k + 1] == '`' && s[k + 2] == '`' {
      assert s[k..k + 3] == Fence;
    }
  }

  /** An opening made of a fence and a tag (a character other than a line
      break) starts nowhere in a fenced block whose fences stand on their
      own lines, nor on the line break that may follow it. */
  lemma TaggedOpenAfterBlock(a: string, tail: string, open: string)
    requires |open| > 3 && open[..3] == Fence && open[3] != '\n'
    requires !Contains(a, Fence) && (tail == [] || tail[0] == '\n')
    ensures forall j :: 0 <= j <= |a| + 8 ==> !OccursAt(Fence + "\n" + a + "\n```" + tail, open, j)
  {
    var text := Fence + "\n" + a + "\n```" + tail;
    var n := |a|;
    assert |text| == n + 8 + |tail|;
    assert text[3] == '\n' && text[n + 4] == '\n';
    assert forall i :: 0 <= i < n ==> text[i + 4] == a[i];
    assert tail != [] ==> text[n + 8] == '\n';
    assert open[0] == '`' && open[1] == '`' && open[2] == '`' by {
      assert open[..3][0] == open[0] && open[..3][1] == open[1] && open[..3][2] == open[2];
    }
    forall j | 0 <= j <= n + 8 ensures !OccursAt(text, open, j) {
      if j + |open| <= |text| {
        var w := text[j..j + |open|];
        assert forall i :: 0 <= i < |open| ==> w[i] == text[j + i];
        if j <= 3 {
          assert w[3 - j] == '\n';
        } else if j + 3 <= n + 4 {
          FenceChars(a, j - 4);
          assert text[j] == a[j - 4] && text[j + 1] == a[j - 3] && text[j + 2] == a[j - 2];
        } else if j <= n + 4 {
          assert w[n + 4 - j] == '\n';
        } else {
          assert w[n + 8 - j] == '\n';
        }
      }
    }
  }

  /** A tagged block that follows a generic block is the one found for its
      tag. */
  lemma TaggedBlockAfterBlock(a: string, open: string, b: string)
    requires |open| > 3 && open[..3] == Fence && open[3] != '\n'
    requires !Contains(a, Fence) && !Contains(b, Fence)
    ensures FencedBlock(Fence + "\n" + a + "\n```\n" + open + b + "\n```", open) == Some(b + "\n")
  {
    var pre := Fence + "\n" + a + "\n```\n";
    var tail := "\n" + open + b + "\n```";
    TaggedOpenAfterBlock(a, tail, open);
    assert pre + open + b + "\n```" == Fence + "\n" + a + "\n```" + tail;
    FenceRoundTripAfter(pre, open, b);
  }

  /** In a fence-free body followed by a closing fence on its own line, the
      first fence is the closing one. */
  lemma ClosingFence(body: string)
    requires !Contains(body, Fence)
    ensures IndexOf(body + "\n```", Fence) == Some(|body| + 1)
  {
    var rest := body + "\n```";
    var n := |body|;
    assert OccursAt(rest, Fence, n + 1) by { assert rest[n + 1..n + 4] == Fence; }
    forall j | 0 <= j < n + 1
      ensures !OccursAt(rest, Fence, j)
    {
      if j + 3 <= n {
        assert rest[j..j + 3] == body[j..j + 3];
        assert !OccursAt(body, Fence, j);
      } else {
        assert rest[n] == '\n';
        assert rest[j..j + 3][n - j] == '\n';
      }
    }
    OccursContains(rest, Fence, n + 1);
  }

  /** The number a string of decimal digits denotes. */
  function DigitsValue(s: string): nat
    requires forall i :: 0 <= i < |s| ==> '0' <= s[i] <= '9'
  {
    if s == [] then 0 else DigitsValue(s[..|s| - 1]) * 10 + (s[|s| - 1] - '0') as nat
  }

  /** The decimal digits of `n`, as `str(n)` prints them: digits that
      denote `n`, with no leading zero. */
  function Decimal(n: nat): (r: string)
    ensures |r| >= 1
    ensures forall i :: 0 <= i < |r| ==> '0' <= r[i] <= '9'
    ensures DigitsValue(r) == n
    ensures r[0] == '0' <==> n == 0
  {
    var d := ['0' + (n % 10) as char];
    if n < 10 then d
    else
      var r := Decimal(n / 10) + d;
      assert r[..|r| - 1] == Decimal(n / 10);
      r
  }
}
