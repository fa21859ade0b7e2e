/** Extraction of the JSON text from the model's reply (supabase/functions/analyze-camouflage/index.ts:117-118).

    The source tries `/```json\n?([\s\S]*?)\n?```/` and then `/```\n?([\s\S]*?)\n?```/`, and
    parses the whole reply when neither matches. JavaScript's `match` returns the leftmost match;
    at a given start the optional newline after the opener is taken when present, the lazy group
    then grows one character at a time, and it stops at the first index where the text reads
    "\n```" or "```". Taking the optional newline is never the wrong choice: when no closing
    fence follows it, none follows the newline either, so backtracking finds nothing new. */
module Fence {
  import opened Records

  const Backticks: string := "```"
  const JsonOpener: string := "```json"

  /** `p` occurs in `s` at index `i`. */
  predicate StartsAt(s: string, i: int, p: string) {
    0 <= i && i + |p| <= |s| && s[i..i + |p|] == p
  }

  /** Three backticks start at index `k`. */
  predicate FenceAt(s: string, k: int) {
    StartsAt(s, k, Backticks)
  }

  /** The tail `\n?```` of either pattern can match at index `k`. */
  predicate CloseAt(s: string, k: int) {
    StartsAt(s, k, "\n```") || FenceAt(s, k)
  }

  /** `s` contains no three backticks in a row. */
  predicate NoFence(s: string) {
    forall k :: 0 <= k <= |s| ==> !FenceAt(s, k)
  }

  /** The least index at or after `k` where the lazy group can stop. */
  function FindClose(s: string, k: nat): (r: Option<nat>)
    requires k <= |s|
    ensures r.Some? ==> k <= r.value && CloseAt(s, r.value)
    ensures r.Some? ==> forall j :: k <= j < r.value ==> !CloseAt(s, j)
    ensures r.None? ==> forall j :: k <= j <= |s| ==> !CloseAt(s, j)
    decreases |s| - k
  {
    if CloseAt(s, k) then Some(k)
    else if k == |s| then None
    else FindClose(s, k + 1)
  }

  /** Where the group starts when the opener ends at `p`: one optional newline is skipped. */
  function CaptureStart(s: string, p: nat): (q: nat)
    requires p <= |s|
    ensures q <= |s|
    ensures q == p || q == p + 1
    ensures q == p + 1 <==> (p < |s| && s[p] == '\n')
  {
    if p < |s| && s[p] == '\n' then p + 1 else p
  }

  /** The group the pattern `opener\n?([\s\S]*?)\n?```` captures when matched at index `i`. */
  function MatchAt(s: string, i: nat, opener: string): (r: Option<string>)
    requires i <= |s|
    ensures r.Some? ==> StartsAt(s, i, opener)
  {
    if !StartsAt(s, i, opener) then None
    else
      var q := CaptureStart(s, i + |opener|);
      match FindClose(s, q)
      case None => None
      case Some(k) => Some(s[q..k])
  }

  /** The leftmost match of the pattern, searching from index `i` on. */
  function FirstMatch(s: string, opener: string, i: nat): (r: Option<string>)
    requires i <= |s|
    ensures r.None? <==> forall x :: i <= x <= |s| ==> MatchAt(s, x, opener).None?
    decreases |s| - i
  {
    match MatchAt(s, i, opener)
    case Some(c) => Some(c)
    case None => if i == |s| then None else FirstMatch(s, opener, i + 1)
  }

  /** A `Some` result is the group of the leftmost index where the pattern matches. */
  lemma {:induction false} FirstMatchIsLeftmost(s: string, opener: string, i: nat, x: nat)
    requires i <= x <= |s|
    requires MatchAt(s, x, opener).Some?
    requires forall y :: i <= y < x ==> MatchAt(s, y, opener).None?
    ensures FirstMatch(s, opener, i) == MatchAt(s, x, opener)
    decreases x - i
  {
    if i < x {
      FirstMatchIsLeftmost(s, opener, i + 1, x);
    }
  }

  /** `jsonString` of index.ts:117-118: the `json`-tagged fence first, then any fence, else the
      whole text. The result is either the text itself or contains no fence. */
  function ExtractJson(content: string): (r: string)
    ensures r == content || NoFence(r)
    ensures r != content ==> FirstMatch(content, JsonOpener, 0) == Some(r) || FirstMatch(content, Backticks, 0) == Some(r)
    // Without a `json` fence, a plain fence's group is what is parsed.
    ensures FirstMatch(content, JsonOpener, 0).None? && FirstMatch(content, Backticks, 0).Some? ==>
      r == FirstMatch(content, Backticks, 0).value
  {
    match FirstMatch(content, JsonOpener, 0)
    case Some(c) =>
      FirstMatchHasNoFence(content, JsonOpener, 0);
      c
    case None =>
      match FirstMatch(content, Backticks, 0)
      case Some(c) =>
        FirstMatchHasNoFence(content, Backticks, 0);
        c
      case None => content
  }

  /** The lazy group never runs over a fence: it stops at the first one. */
  lemma CaptureHasNoFence(s: string, i: nat, opener: string)
    requires i <= |s|
    requires MatchAt(s, i, opener).Some?
    ensures NoFence(MatchAt(s, i, opener).value)
  {
    var q := CaptureStart(s, i + |opener|);
    var k := FindClose(s, q).value;
    var c := s[q..k];
    assert c == MatchAt(s, i, opener).value;
    forall j | 0 <= j <= |c|
      ensures !FenceAt(c, j)
    {
      if FenceAt(c, j) {
        SubSlice(s, q, k, j, j + 3);
        assert CloseAt(s, q + j);
        assert false;
      }
    }
  }

  lemma {:induction false} FirstMatchHasNoFence(s: string, opener: string, i: nat)
    requires i <= |s|
    requires FirstMatch(s, opener, i).Some?
    ensures NoFence(FirstMatch(s, opener, i).value)
    decreases |s| - i
  {
    if MatchAt(s, i, opener).Some? {
      CaptureHasNoFence(s, i, opener);
    } else {
      FirstMatchHasNoFence(s, opener, i + 1);
    }
  }

  /** An opener that begins with three backticks cannot match in fence-free text. */
  lemma {:induction false} NoMatchWithoutFence(s: string, opener: string, i: nat)
    requires i <= |s|
    requires NoFence(s)
    requires |opener| >= 3 && opener[..3] == Backticks
    ensures FirstMatch(s, opener, i).None?
    decreases |s| - i
  {
    if StartsAt(s, i, opener) {
      assert s[i..i + 3] == s[i..i + |opener|][..3];
      assert FenceAt(s, i);
    }
    if i < |s| {
      NoMatchWithoutFence(s, opener, i + 1);
    }
  }

  /** Text without a fence is parsed as it is. */
  lemma UnfencedUnchanged(s: string)
    requires NoFence(s)
    ensures ExtractJson(s) == s
  {
    NoMatchWithoutFence(s, JsonOpener, 0);
    NoMatchWithoutFence(s, Backticks, 0);
  }

  /** Extraction is idempotent on every reply. */
  lemma ExtractIdempotent(content: string)
    ensures ExtractJson(ExtractJson(content)) == ExtractJson(content)
  {
    var r := ExtractJson(content);
    if r != content {
      UnfencedUnchanged(r);
    }
  }

  /** When a `json` fence matches, the plain-fence pattern is not consulted. */
  lemma JsonFenceFirst(content: string)
    requires FirstMatch(content, JsonOpener, 0).Some?
    ensures ExtractJson(content) == FirstMatch(content, JsonOpener, 0).value
  {
  }

  /** No match can start anywhere in `[i, j)`, so the search may resume at `j`. */
  lemma {:induction false} FirstMatchSkip(s: string, opener: string, i: nat, j: nat)
    requires i <= j <= |s|
    requires forall x :: i <= x < j ==> !StartsAt(s, x, opener)
    ensures FirstMatch(s, opener, i) == FirstMatch(s, opener, j)
    decreases j - i
  {
    if i < j {
      FirstMatchSkip(s, opener, i + 1, j);
    }
  }

  /** A reply with a plain fence around `A` followed by a `json` fence around `B`. */
  const TwoFences: string := "```\nA\n```\n```json\nB\n```"

  lemma PlainPatternPicksFirstFence()
    ensures FirstMatch(TwoFences, Backticks, 0) == Some("A")
  {
    var t := TwoFences;
    var head := t[..9];
    assert head == "```\nA\n```";
    assert t[3] == head[3] == '\n' && t[4] == head[4] == 'A';
    assert t[5..9] == head[5..9] == "\n```";
    assert t[0..3] == head[0..3] == Backticks;
    assert t[4..5] == head[4..5] == "A";
    assert StartsAt(t, 5, "\n```");
    NoCloseAt(t, 4);
    FindCloseAt(t, 4, 5);
    assert StartsAt(t, 0, Backticks) && CaptureStart(t, 3) == 4;
    assert MatchAt(t, 0, Backticks) == Some("A");
  }

  lemma NoJsonOpenerBefore(x: nat)
    requires x < 10
    ensures !StartsAt(TwoFences, x, JsonOpener)
  {
    var t := TwoFences;
    assert t[..13] == "```\nA\n```\n```";
    assert t[x + 3] == t[..13][x + 3];
    assert t[x + 3] != 'j';
    if StartsAt(t, x, JsonOpener) {
      StartsAtChars(t, x, JsonOpener);
      assert false;
    }
  }

  lemma JsonMatchAtSecondFence()
    ensures MatchAt(TwoFences, 10, JsonOpener) == Some("B")
  {
    var t := TwoFences;
    assert t[10..17] == JsonOpener && t[17] == '\n' && t[18] == 'B';
    assert StartsAt(t, 19, "\n```");
    NoCloseAt(t, 18);
    FindCloseAt(t, 18, 19);
    assert CaptureStart(t, 17) == 18 && t[18..19] == "B";
  }

  lemma JsonPatternPicksSecondFence()
    ensures FirstMatch(TwoFences, JsonOpener, 0) == Some("B")
  {
    forall x | 0 <= x < 10
      ensures !StartsAt(TwoFences, x, JsonOpener)
    {
      NoJsonOpenerBefore(x);
    }
    FirstMatchSkip(TwoFences, JsonOpener, 0, 10);
    JsonMatchAtSecondFence();
  }

  /** The `json` pattern outranks position: a plain fence earlier in the reply is passed over for
      a later `json` fence, although the plain pattern alone would pick the earlier one. */
  lemma JsonFenceOutranksEarlierPlainFence()
    ensures FirstMatch(TwoFences, Backticks, 0) == Some("A")
    ensures ExtractJson(TwoFences) == "B"
  {
    PlainPatternPicksFirstFence();
    JsonPatternPicksSecondFence();
  }

  /** Neither closing form starts at a character other than a newline or a backtick. */
  lemma NoCloseAt(s: string, k: nat)
    requires k < |s| && s[k] != '\n' && s[k] != '`'
    ensures !CloseAt(s, k)
  {
    if StartsAt(s, k, "\n```") {
      StartsAtChars(s, k, "\n```");
    }
    if FenceAt(s, k) {
      StartsAtChars(s, k, Backticks);
    }
  }

  /** FindClose stops at a given close when nothing earlier closes. */
  lemma FindCloseAt(s: string, k: nat, m: nat)
    requires k <= m <= |s|
    requires CloseAt(s, m)
    requires forall j :: k <= j < m ==> !CloseAt(s, j)
    ensures FindClose(s, k) == Some(m)
  {
    var r := FindClose(s, k);
    assert r.Some?;
    assert CloseAt(s, r.value);
    assert r.value >= m;
  }

  /** Character by character reading of StartsAt. */
  lemma StartsAtChars(s: string, i: int, p: string)
    requires StartsAt(s, i, p)
    ensures forall x :: 0 <= x < |p| ==> s[i + x] == p[x]
  {
    forall x | 0 <= x < |p|
      ensures s[i + x] == p[x]
    {
      assert s[i..i + |p|][x] == s[i + x];
    }
  }

  /** A slice of a slice is a slice of the original. */
  lemma SubSlice(s: string, a: nat, b: nat, i: nat, j: nat)
    requires a <= b <= |s| && i <= j <= b - a
    ensures s[a..b][i..j] == s[a + i..a + j]
  {
    forall x | 0 <= x < j - i
      ensures s[a..b][i..j][x] == s[a + i..a + j][x]
    {
    }
  }

  /** Wrapping fence-free text `body` in `opener`, a newline and "\n```" yields a reply in which
      the group starting at `p` (just past the newline) closes exactly at the end of `body`. */
  lemma FencedCloseAtEnd(t: string, body: string, p: nat)
    requires NoFence(body)
    requires p + |body| + 4 == |t|
    requires t[p..p + |body|] == body
    requires t[p + |body|..] == "\n```"
    ensures FindClose(t, p) == Some(p + |body|)
  {
    var e := p + |body|;
    assert t[e] == '\n';
    forall j | p <= j <= e
      ensures !FenceAt(t, j)
    {
      if j + 3 <= e {
        // Three characters of `body`, which holds no fence.
        SubSlice(t, p, e, j - p, j - p + 3);
        assert t[j..j + 3] == body[j - p..j - p + 3];
        assert !FenceAt(body, j - p);
      } else {
        // The three characters cover the newline at `e`.
        assert t[j..j + 3][e - j] == t[e] != Backticks[e - j];
      }
    }
    forall j | p <= j < e
      ensures !CloseAt(t, j)
    {
      assert !FenceAt(t, j + 1);
      assert t[j + 1..j + 4] == t[j..j + 4][1..];
      assert "\n```"[1..] == Backticks;
    }
    assert t[e..e + 4] == "\n```";
    FindCloseAt(t, p, e);
  }

  /** Round trip: a `json`-fenced block of fence-free text yields exactly that text. */
  lemma JsonFencedRoundTrip(s: string)
    requires NoFence(s)
    ensures ExtractJson("```json\n" + s + "\n```") == s
  {
    var t := "```json\n" + s + "\n```";
    assert t[..7] == JsonOpener;
    assert t[7] == '\n';
    assert t[8..8 + |s|] == s;
    assert t[8 + |s|..] == "\n```";
    FencedCloseAtEnd(t, s, 8);
    assert MatchAt(t, 0, JsonOpener) == Some(s);
  }

  /** Round trip for an untagged fence: the `json` pattern finds nothing and the plain one
      yields exactly the fenced text. */
  lemma PlainFencedRoundTrip(s: string)
    requires NoFence(s)
    ensures ExtractJson("```\n" + s + "\n```") == s
  {
    var t := "```\n" + s + "\n```";
    assert t[3] == '\n';
    assert t[4..4 + |s|] == s;
    assert t[4 + |s|..] == "\n```";
    FencedCloseAtEnd(t, s, 4);
    assert t[..3] == Backticks;
    assert MatchAt(t, 0, Backticks) == Some(s);
    NoJsonOpenerInPlainFence(t, s, 0);
  }

  lemma {:induction false} NoJsonOpenerInPlainFence(t: string, s: string, i: nat)
    requires NoFence(s)
    requires t == "```\n" + s + "\n```"
    requires i <= |t|
    ensures FirstMatch(t, JsonOpener, i).None?
    decreases |t| - i
  {
    if StartsAt(t, i, JsonOpener) {
      var e := 4 + |s|;
      assert t[3] == '\n';
      assert JsonOpener[..3] == Backticks;
      assert t[i..i + 7][0] == t[i] && t[i..i + 7][1] == t[i + 1] && t[i..i + 7][2] == t[i + 2];
      assert t[i..i + 3] == Backticks;
      if i <= 3 {
        StartsAtChars(t, i, JsonOpener);
      } else {
        SubSlice(t, 4, e, i - 4, i - 1);
        assert t[4..e] == s;
        assert FenceAt(s, i - 4);
      }
      assert false;
    }
    if i < |t| {
      NoJsonOpenerInPlainFence(t, s, i + 1);
    }
  }
}
