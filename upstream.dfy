/** Reading the classifier's answer, shared by both analysis routes: the
    HTTP reply, the concatenation of its text blocks, and the removal of
    Markdown code fences before `JSON.parse`. */
module Upstream {
  import opened JsText
  import opened JsValue
  import opened Seqs

  /** One call to the classifier: a status and a body that `response.json()`
      either parses (`Some`) or rejects (`None`); or no response at all
      (`fetch` rejected). */
  datatype Reply = Reply(status: int, body: Option<Value>) | NoResponse

  /** `response.ok`. */
  predicate IsOk(status: int)
  {
    200 <= status <= 299
  }

  predicate IsRateLimited(r: Reply)
  {
    r.Reply? && r.status == 429
  }

  // ---------------------------------------------------------------------
  // Text blocks
  // ---------------------------------------------------------------------

  predicate IsTextBlock(block: Value)
  {
    HasProps(block) && Field(block, "type") == Str("text")
  }

  /** What one block adds to `analysisText`: `String(block.text)` for a
      text block, nothing otherwise. */
  function Piece(block: Value): string
  {
    if IsTextBlock(block) then ToJsString(Field(block, "text")) else ""
  }

  /** What each block adds, block by block. */
  function Pieces(blocks: seq<Value>): (r: seq<string>)
    ensures |r| == |blocks|
  {
    seq(|blocks|, k requires 0 <= k < |blocks| => Piece(blocks[k]))
  }

  /** The strings joined in order. */
  function Concat(parts: seq<string>): string
  {
    if |parts| == 0 then "" else Concat(parts[..|parts| - 1]) + parts[|parts| - 1]
  }

  /** The text accumulated over `blocks`, in order. */
  function TextOf(blocks: seq<Value>): string
  {
    Concat(Pieces(blocks))
  }

  /** Every block can be asked for its `type` without throwing. */
  predicate Readable(blocks: seq<Value>)
  {
    forall k :: 0 <= k < |blocks| ==> HasProps(blocks[k])
  }

  /** `for (const block of data.content) ...`: an array is walked (a `null`
      block throws); a string is walked character by character, and a
      one-character string has no `type`; any other value is not iterable. */
  function ContentText(data: Value): Try<string>
  {
    match Prop(data, "content")
    case Thrown => Thrown
    case Ok(content) =>
      match content
      case Arr(blocks) => if Readable(blocks) then Ok(TextOf(blocks)) else Thrown
      case Str(_) => Ok("")
      case _ => Thrown
  }

  /** The accumulation loop of both routes. */
  method ExtractText(data: Value) returns (text: Try<string>)
    ensures text == ContentText(data)
  {
    if !HasProps(data) {
      return Thrown;
    }
    var content := Field(data, "content");
    if content.Str? {
      return Ok("");
    }
    if !content.Arr? {
      return Thrown;
    }
    var blocks := content.items;
    var analysisText := "";
    var i := 0;
    while i < |blocks|
      invariant 0 <= i <= |blocks|
      invariant Readable(blocks[..i])
      invariant analysisText == TextOf(blocks[..i])
    {
      var block := blocks[i];
      if !HasProps(block) {
        assert !Readable(blocks);
        return Thrown;
      }
      assert Pieces(blocks[..i + 1]) == Pieces(blocks[..i]) + [Piece(block)];
      if Field(block, "type") == Str("text") {
        analysisText := analysisText + ToJsString(Field(block, "text"));
      }
      i := i + 1;
    }
    assert blocks[..i] == blocks;
    text := Ok(analysisText);
  }

  lemma {:induction false} ConcatAppend(a: seq<string>, b: seq<string>)
    ensures Concat(a + b) == Concat(a) + Concat(b)
    decreases |b|
  {
    if |b| == 0 {
      assert a + b == a;
    } else {
      var b' := b[..|b| - 1];
      ConcatAppend(a, b');
      assert (a + b)[..|a + b| - 1] == a + b';
    }
  }

  /** Concatenation distributes over the blocks. */
  lemma TextOfAppend(a: seq<Value>, b: seq<Value>)
    ensures TextOf(a + b) == TextOf(a) + TextOf(b)
  {
    assert Pieces(a + b) == Pieces(a) + Pieces(b);
    ConcatAppend(Pieces(a), Pieces(b));
  }

  /** Blocks of any other type are ignored: the text is that of the text
      blocks alone, in their order. */
  lemma {:induction false} TextOfTextBlocks(blocks: seq<Value>)
    ensures TextOf(blocks) == TextOf(Filter(blocks, IsTextBlock))
    decreases |blocks|
  {
    if |blocks| > 0 {
      var init := blocks[..|blocks| - 1];
      var last := blocks[|blocks| - 1];
      assert blocks == init + [last];
      FilterSnoc(init, last, IsTextBlock);
      TextOfTextBlocks(init);
      TextOfAppend(init, [last]);
      TextOfAppend(Filter(init, IsTextBlock), if IsTextBlock(last) then [last] else []);
      assert Pieces([]) == [];
      assert Pieces([last]) == [Piece(last)];
      assert Concat([Piece(last)]) == Concat([]) + Piece(last);
    }
  }

  /** A text block `{type: "text", text: s}`. */
  function TextBlock(s: string): Value
  {
    Obj(map["type" := Str("text"), "text" := Str(s)])
  }

  /** For text blocks with string texts the result is their concatenation. */
  lemma TextOfStrings(parts: seq<string>)
    ensures Readable(seq(|parts|, k requires 0 <= k < |parts| => TextBlock(parts[k])))
    ensures TextOf(seq(|parts|, k requires 0 <= k < |parts| => TextBlock(parts[k]))) == Concat(parts)
  {
    var blocks := seq(|parts|, k requires 0 <= k < |parts| => TextBlock(parts[k]));
    forall k | 0 <= k < |parts|
      ensures Piece(blocks[k]) == parts[k]
    {
      assert Field(blocks[k], "type") == Str("text");
    }
    assert Pieces(blocks) == parts;
  }

  // ---------------------------------------------------------------------
  // Code fences
  // ---------------------------------------------------------------------

  const JsonFence: string := "```json"
  const Fence: string := "```"

  /** `s.replace(/```json|```/g, "")`: scanning left to right, each
      occurrence of "```json" (tried first) or "```" is removed. */
  function StripFences(s: string): string
    decreases |s|
  {
    if |s| == 0 then ""
    else if JsonFence <= s then StripFences(s[|JsonFence|..])
    else if Fence <= s then StripFences(s[|Fence|..])
    else [s[0]] + StripFences(s[1..])
  }

  /** `analysisText.replace(/```json|```/g, "").trim()`. */
  function CleanJson(s: string): string
  {
    Trim(StripFences(s))
  }

  lemma OccursShift(s: string, p: string, i: int)
    requires |s| > 0 && 0 <= i
    ensures OccursAt(s[1..], p, i) <==> OccursAt(s, p, i + 1)
  {
    if 0 <= i && i + |p| <= |s| - 1 {
      assert s[1..][i..i + |p|] == s[i + 1..i + 1 + |p|];
    }
  }

  /** A cleaned text starts with a backtick only if the input did. */
  lemma {:induction false} StripLeadingTick(s: string)
    ensures |StripFences(s)| >= 1 && StripFences(s)[0] == '`' ==> |s| >= 1 && s[0] == '`'
    decreases |s|
  {
  }

  /** A cleaned text starts with two backticks only if the input did. */
  lemma {:induction false} StripLeadingTicks(s: string)
    ensures |StripFences(s)| >= 2 && StripFences(s)[0] == '`' && StripFences(s)[1] == '`' ==>
            |s| >= 2 && s[0] == '`' && s[1] == '`'
    decreases |s|
  {
    if |s| > 0 && !(JsonFence <= s) && !(Fence <= s) {
      StripLeadingTick(s[1..]);
    }
  }

  /** No "```" survives the replacement, even one formed across a removed fence. */
  lemma {:induction false} NoFenceLeft(s: string)
    ensures !Contains(StripFences(s), Fence)
    decreases |s|
  {
    if |s| == 0 {
    } else if JsonFence <= s {
      NoFenceLeft(s[|JsonFence|..]);
    } else if Fence <= s {
      NoFenceLeft(s[|Fence|..]);
    } else {
      var rest := StripFences(s[1..]);
      var r := [s[0]] + rest;
      assert r == StripFences(s);
      NoFenceLeft(s[1..]);
      StripLeadingTicks(s[1..]);
      forall i | 0 <= i <= |r| - |Fence|
        ensures !OccursAt(r, Fence, i)
      {
        if i == 0 {
          assert !(Fence <= s);
          if s[0] == '`' {
            assert !(|s| >= 3 && s[1] == '`' && s[2] == '`');
            assert r[1..3] == rest[..2];
          }
        } else {
          OccursShift(r, Fence, i - 1);
          assert r[1..] == rest;
        }
      }
    }
  }

  /** A text without "```" is left as it is. */
  lemma {:induction false} StripFenceFree(s: string)
    requires !Contains(s, Fence)
    ensures StripFences(s) == s
    decreases |s|
  {
    if |s| > 0 {
      assert !OccursAt(s, Fence, 0);
      assert !(Fence <= s) && !(JsonFence <= s);
      forall i | 0 <= i <= |s[1..]| - |Fence|
        ensures !OccursAt(s[1..], Fence, i)
      {
        OccursShift(s, Fence, i);
      }
      StripFenceFree(s[1..]);
      assert [s[0]] + s[1..] == s;
    }
  }

  lemma ContainsSlice(s: string, p: string, i: int, j: int)
    requires 0 <= i <= j <= |s| && Contains(s[i..j], p)
    ensures Contains(s, p)
  {
    var t := s[i..j];
    var k :| 0 <= k <= |t| - |p| && OccursAt(t, p, k);
    assert t[k..k + |p|] == p;
    forall m | 0 <= m < |p|
      ensures s[i + k + m] == p[m]
    {
      assert t[k + m] == s[i + k + m];
    }
    assert s[i + k..i + k + |p|] == p;
    assert OccursAt(s, p, i + k);
  }

  /** Trimming a text without "```" leaves none. */
  lemma TrimNoFence(s: string)
    requires !Contains(s, Fence)
    ensures !Contains(Trim(s), Fence)
  {
    var i := LeadingWhite(s);
    var e := |s| - TrailingWhite(s[i..]);
    if Contains(Trim(s), Fence) {
      ContainsSlice(s, Fence, i, e);
    }
  }

  /** Cleaning is idempotent: a cleaned text cleans to itself. */
  lemma CleanIdempotent(s: string)
    ensures CleanJson(CleanJson(s)) == CleanJson(s)
  {
    var stripped := StripFences(s);
    NoFenceLeft(s);
    TrimNoFence(stripped);
    StripFenceFree(Trim(stripped));
    TrimIdempotent(stripped);
  }

  /** A character other than a backtick is copied. */
  lemma StripPlain(s: string)
    requires |s| > 0 && s[0] != '`'
    ensures StripFences(s) == [s[0]] + StripFences(s[1..])
  {
    assert JsonFence[0] == '`' && Fence[0] == '`';
  }

  /** Text without backticks passes through unchanged, whatever follows it. */
  lemma {:induction false} StripTickFree(p: string, q: string)
    requires '`' !in p
    ensures StripFences(p + q) == p + StripFences(q)
    decreases |p|
  {
    if |p| == 0 {
      assert p + q == q;
    } else {
      var s := p + q;
      assert s[0] == p[0] && p[0] in p;
      StripPlain(s);
      assert s[1..] == p[1..] + q;
      SliceChars(p, 1, |p|);
      assert p[1..|p|] == p[1..];
      StripTickFree(p[1..], q);
      assert [p[0]] + p[1..] == p;
    }
  }

  /** A payload followed by a closing fence loses the fence. */
  lemma StripClosed(p: string)
    requires '`' !in p
    ensures StripFences(p + Fence) == p
  {
    StripTickFree(p, Fence);
    assert Fence[|Fence|..] == "";
  }

  /** A payload inside a fence tagged `json` cleans to the trimmed payload. */
  lemma CleanTagged(p: string)
    requires '`' !in p
    ensures CleanJson(JsonFence + p + Fence) == Trim(p)
  {
    var s := JsonFence + (p + Fence);
    assert JsonFence + p + Fence == s;
    assert JsonFence <= s;
    assert s[|JsonFence|..] == p + Fence;
    StripClosed(p);
  }

  /** A bare fence followed by `tail` reads as a tagged fence only when
      `tail` starts with the word `json`. */
  lemma TaggedMeansWord(tail: string)
    ensures JsonFence <= Fence + tail <==> "json" <= tail
  {
    var s := Fence + tail;
    if |tail| >= 4 {
      assert s[..|JsonFence|] == Fence + tail[..4];
      assert JsonFence == Fence + "json";
      if "json" <= tail {
        assert tail[..4] == "json";
      }
      if JsonFence <= s {
        assert s[3..7] == tail[..4];
        assert JsonFence[3..7] == "json";
      }
    }
  }

  /** A closing fence cannot complete the word `json`. */
  lemma WordBeforeFence(p: string)
    requires '`' !in p
    ensures "json" <= p + Fence ==> "json" <= p
  {
    if |p| >= 4 {
      assert (p + Fence)[..4] == p[..4];
    } else {
      assert (p + Fence)[|p|] == '`';
    }
  }

  /** A payload inside a bare fence cleans to the trimmed payload, unless the
      payload itself starts with `json`: the fence and that word then form a
      tagged fence and both are removed. */
  lemma CleanBare(p: string)
    requires '`' !in p && !("json" <= p)
    ensures CleanJson(Fence + p + Fence) == Trim(p)
  {
    var tail := p + Fence;
    var s := Fence + tail;
    assert Fence + p + Fence == s;
    TaggedMeansWord(tail);
    WordBeforeFence(p);
    assert Fence <= s;
    assert s[|Fence|..] == tail;
    StripClosed(p);
  }

  /** Without backticks the payload is only trimmed. */
  lemma CleanUnfenced(p: string)
    requires '`' !in p
    ensures CleanJson(p) == Trim(p)
  {
    StripTickFree(p, "");
    assert p + "" == p;
  }

  /** A bare fence followed by the word `json` is a tagged fence: the word
      is removed along with it. */
  lemma CleanBareJsonWord(p: string)
    requires '`' !in p
    ensures CleanJson(Fence + "json" + p + Fence) == Trim(p)
  {
    assert Fence + "json" + p + Fence == JsonFence + p + Fence;
    CleanTagged(p);
  }
}
