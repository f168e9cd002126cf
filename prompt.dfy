/** `build_prompt` (main.py:70-80): the completion prompt made of a fixed
    preamble, one numbered block per hit and the user's question. */
module Prompt {
  import opened Wrappers
  import opened Text
  import opened Hits

  /** The system preamble. The source writes it as three adjacent literals, so
      no space separates its sentences. */
  const Preamble: string :=
    "You are a legal research assistant specialized in Tamil Nadu apartment law."
    + "Answer concisely. When quoting statutory or judgment text, include exact quotes and cite source title, date and page."
    + "If uncertain, say so and provide the chunk text used as evidence.\n\n"

  const ContextHeader: string := "\n\nContext:\n"

  /** Everything before the first block. */
  const PromptHead: string := Preamble + ContextHeader

  const BlockSeparator: string := "\n\n"

  const DocTag: string := "[DOC "

  const QuestionLead: string := "\n\nUser question: "

  const AnswerCue: string := "\n\nAnswer:"

  /** The tail of the prompt, after the last block. */
  function QuestionTail(question: string): string
  {
    QuestionLead + question + AnswerCue
  }

  /** How the f-string renders a value that may be `None`. */
  function Render(v: Option<string>): string
  {
    match v
    case Some(s) => s
    case None => "None"
  }

  /** The fields of a hit's block after its tag: title, date, page and URL,
      then the hit's text on a line of its own. */
  function BlockFields(h: Hit): string
  {
    "Title: " + Render(h.title) + " | Date: " + Render(h.date) + " | Page: " + Render(h.page)
    + " | URL: " + Render(h.sourceUrl) + "\n" + Render(h.text)
  }

  /** The block of the hit numbered `i` (main.py:78): the tag `[DOC i]`, then
      the hit's fields. Its tag reads back as `i`, whatever the fields hold. */
  function Block(i: nat, h: Hit): (r: string)
    ensures DocNumber(r) == Some(i)
  {
    TagReadsBack(i, " " + BlockFields(h));
    DocTag + NatToString(i) + "]" + (" " + BlockFields(h))
  }

  /** The blocks of `hits`, numbered from `first` in hit order. */
  function Blocks(hits: seq<Hit>, first: nat): (parts: seq<string>)
    ensures |parts| == |hits|
    ensures forall k :: 0 <= k < |hits| ==> parts[k] == Block(first + k, hits[k])
  {
    if hits == [] then [] else [Block(first, hits[0])] + Blocks(hits[1..], first + 1)
  }

  /** The context section: the blocks numbered from 1, separated by blank
      lines. It is empty without hits, and otherwise opens with the first hit's
      block numbered 1 (`ContextSnoc` adds each later block at the end). */
  function Context(hits: seq<Hit>): (r: string)
    ensures hits == [] ==> r == ""
    ensures hits != [] ==> Block(1, hits[0]) <= r
  {
    Join(BlockSeparator, Blocks(hits, 1))
  }

  /** The prompt: the head, the context section and the question tail. */
  function PromptText(question: string, hits: seq<Hit>): (prompt: string)
    ensures |prompt| == |PromptHead| + |Context(hits)| + |QuestionTail(question)|
    ensures prompt[..|PromptHead|] == PromptHead
    ensures prompt[|PromptHead|..|prompt| - |QuestionTail(question)|] == Context(hits)
    ensures prompt[|prompt| - |QuestionTail(question)|..] == QuestionTail(question)
  {
    PromptHead + Context(hits) + QuestionTail(question)
  }

  /** `build_prompt` as the source runs it: a loop that appends one block per
      hit, enumerated from 1, then a single join and concatenation. */
  method BuildPrompt(question: string, hits: seq<Hit>) returns (prompt: string)
    ensures prompt == PromptText(question, hits)
  {
    var parts: seq<string> := [];
    for k := 0 to |hits|
      invariant |parts| == k
      invariant forall j :: 0 <= j < k ==> parts[j] == Block(j + 1, hits[j])
    {
      parts := parts + [Block(k + 1, hits[k])];
    }
    assert parts == Blocks(hits, 1);
    prompt := Preamble + ContextHeader + Join(BlockSeparator, parts) + QuestionTail(question);
  }

  /** One more hit adds a blank line and its block, numbered after the others. */
  lemma {:induction false} ContextSnoc(hits: seq<Hit>, h: Hit)
    ensures Context(hits + [h])
            == if hits == [] then Block(1, h) else Context(hits) + BlockSeparator + Block(|hits| + 1, h)
  {
    var before := Blocks(hits, 1);
    var last := Block(|hits| + 1, h);
    var after := Blocks(hits + [h], 1);
    forall k | 0 <= k < |hits| + 1
      ensures after[k] == (before + [last])[k]
    {
      if k < |hits| {
        assert (hits + [h])[k] == hits[k];
      }
    }
    assert after == before + [last];
    JoinSnoc(BlockSeparator, before, last);
  }

  /** N hits give N blocks and N - 1 separators in the context section. */
  lemma ContextLength(hits: seq<Hit>)
    requires hits != []
    ensures |Context(hits)| == TotalLength(Blocks(hits, 1)) + (|hits| - 1) * |BlockSeparator|
  {
    JoinLength(BlockSeparator, Blocks(hits, 1));
  }

  /** The number written in a block's `[DOC i]` tag, if it has one. The service
      never reads a block back; this reader exists only to state that block
      numbering is recoverable (`TagReadsBack`). */
  function DocNumber(block: string): Option<nat>
  {
    if |block| < |DocTag| || block[..|DocTag|] != DocTag then None
    else
      var rest := block[|DocTag|..];
      match IndexOf(rest, ']')
      case None => None
      case Some(k) => if k > 0 && IsDigits(rest[..k]) then Some(ParseNat(rest[..k])) else None
  }

  /** A `[DOC i]` tag reads back as `i`, whatever follows it. */
  lemma TagReadsBack(i: nat, rest: string)
    ensures DocNumber(DocTag + NatToString(i) + "]" + rest) == Some(i)
  {
    var digits := NatToString(i);
    var tail := "]" + rest;
    assert DocTag + digits + "]" + rest == DocTag + (digits + tail);
    assert (DocTag + (digits + tail))[|DocTag|..] == digits + tail;
    assert forall k :: 0 <= k < |digits| ==> digits[k] != ']';
    IndexOfAfter(digits, tail, ']');
    assert (digits + tail)[..|digits|] == digits;
    ParseNatToString(i);
  }

  /** Searching past a prefix without `c` lands on `c`'s first place in the rest. */
  lemma {:induction false} IndexOfAfter(a: string, b: string, c: char)
    requires c !in a
    requires b != [] && b[0] == c
    ensures IndexOf(a + b, c) == Some(|a|)
  {
    if a != [] {
      assert (a + b)[1..] == a[1..] + b;
      IndexOfAfter(a[1..], b, c);
    }
  }

  /** In the prompt's context section, the k-th block (in hit order) is tagged k + 1. */
  lemma BlocksNumbered(hits: seq<Hit>, k: nat)
    requires k < |hits|
    ensures DocNumber(Blocks(hits, 1)[k]) == Some(k + 1)
  {
  }

  /** Different questions over the same hits never give the same prompt. */
  lemma PromptDeterminesQuestion(q1: string, q2: string, hits: seq<Hit>)
    requires PromptText(q1, hits) == PromptText(q2, hits)
    ensures q1 == q2
  {
    var p := PromptText(q1, hits);
    assert |QuestionTail(q1)| == |QuestionTail(q2)|;
    assert QuestionTail(q1) == QuestionTail(q2);
    assert QuestionTail(q1)[|QuestionLead|..|QuestionTail(q1)| - |AnswerCue|] == q1;
    assert QuestionTail(q2)[|QuestionLead|..|QuestionTail(q2)| - |AnswerCue|] == q2;
  }
}
