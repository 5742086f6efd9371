/**
 * Prompt assembly: the two prompt templates, the length-budgeted context
 * built from search results, the chat-message list, and the cleaning and
 * source citation of an answer.
 */
module Prompt {
  import opened Common
  import opened Text
  import opened SearchModelSetup
  import opened Retrieval

  const SystemPrompt: string :=
    "당신은 사회문화 교과서 내용을 기반으로 질문에 답변하는 AI 튜터입니다.\n\n"
    + "[역할]\n- 사회문화 교과서 내용을 정확하게 설명합니다.\n- 학생들이 이해하기 쉽게 답변합니다.\n"
    + "- 제공된 참고 문서를 기반으로 답변합니다.\n\n"
    + "[규칙]\n1. 참고 문서에 있는 내용만을 기반으로 답변하세요.\n"
    + "2. 참고 문서에 없는 내용은 \"제공된 자료에서 해당 내용을 찾을 수 없습니다\"라고 답변하세요.\n"
    + "3. 답변은 명확하고 구조화된 형식으로 제공하세요.\n4. 필요한 경우 예시를 들어 설명하세요.\n"
    + "5. 한국어로 답변하세요.\n"
    + "6. \"위의 문서를 통해\", \"참고 문서에서 찾을 수 있습니다\" 같은 불필요한 문구는 사용하지 마세요.\n"
    + "7. 답변은 핵심 내용만 간결하게 제공하세요."

  // ---------------------------------------------------------------------
  // Templates
  // ---------------------------------------------------------------------

  /** A prompt template with a `{context}` slot followed by a `{question}`
      slot: the fixed text before, between and after them. */
  datatype Template = Template(head: string, mid: string, tail: string)

  const RagTemplate := Template(
    "아래는 사회문화 교과서에서 검색된 참고 문서입니다:\n\n",
    "\n\n---\n\n위의 참고 문서를 바탕으로 다음 질문에 답변해주세요.\n\n질문: ",
    "\n\n답변:")

  const SimpleTemplate := Template(
    "참고 문서:\n",
    "\n\n질문: ",
    "\n\n위 참고 문서를 바탕으로 질문에 답변해주세요.")

  /** `str.format(context=..., question=...)`: both values are inserted
      verbatim, in one pass. */
  function Fill(t: Template, context: string, question: string): string {
    t.head + context + t.mid + question + t.tail
  }

  /** The template named "simple" is the simple one; any other name gives
      the RAG template. */
  function ChooseTemplate(name: string): (t: Template)
    ensures t == SimpleTemplate || t == RagTemplate
    ensures t == SimpleTemplate <==> name == "simple"
  {
    assert SimpleTemplate.head != RagTemplate.head by {
      assert SimpleTemplate.head[0] != RagTemplate.head[0];
    }
    if name == "simple" then SimpleTemplate else RagTemplate
  }

  /** `create_rag_prompt`: the context and the question both appear in the
      prompt verbatim. */
  function CreateRagPrompt(question: string, context: string, template: string): (r: string)
    ensures Contains(r, context) && Contains(r, question)
  {
    var t := ChooseTemplate(template);
    var r := Fill(t, context, question);
    FillRecovers(t, context, question);
    ContainsAt(r, context, |t.head|);
    ContainsAt(r, question, |t.head| + |context| + |t.mid|);
    r
  }

  /** A filled template gives back its context and its question: the
      substitution loses nothing. */
  lemma {:induction false} FillRecovers(t: Template, context: string, question: string)
    ensures var r := Fill(t, context, question);
      && |r| == |t.head| + |context| + |t.mid| + |question| + |t.tail|
      && r[..|t.head|] == t.head
      && r[|t.head|..|t.head| + |context|] == context
      && r[|t.head| + |context| + |t.mid|..|r| - |t.tail|] == question
      && r[|r| - |t.tail|..] == t.tail
  {
    var r := Fill(t, context, question);
    var a := |t.head|;
    var b := a + |context|;
    var c := b + |t.mid|;
    var d := c + |question|;
    assert r == t.head + context + t.mid + question + t.tail;
    assert r[..a] == t.head;
    assert r[a..b] == context;
    assert r[c..d] == question;
    assert r[d..] == t.tail;
  }

  /** Two prompts from the same template are equal only for equal contexts
      and questions. */
  lemma {:induction false} CreateRagPromptInjective(q1: string, c1: string, q2: string, c2: string, template: string)
    requires CreateRagPrompt(q1, c1, template) == CreateRagPrompt(q2, c2, template)
    requires |c1| == |c2|
    ensures q1 == q2 && c1 == c2
  {
    var t := ChooseTemplate(template);
    FillRecovers(t, c1, q1);
    FillRecovers(t, c2, q2);
  }

  // ---------------------------------------------------------------------
  // `create_context_from_results`
  // ---------------------------------------------------------------------

  /** The part for the result at index `i`: "[문서 i+1]", the page when
      metadata is wanted, then the text. */
  function Part(i: nat, r: SearchResult, includeMetadata: bool): string {
    if includeMetadata then ContextEntry(i + 1, r)
    else "[문서 " + NatToString(i + 1) + "]\n" + r.text
  }

  /** The parts of all results, untruncated. */
  function AllParts(results: seq<SearchResult>, includeMetadata: bool): (r: seq<string>)
    ensures |r| == |results|
  {
    seq(|results|, k requires 0 <= k < |results| => Part(k, results[k], includeMetadata))
  }

  /** The length of every part. */
  function Lengths(parts: seq<string>): (r: seq<nat>)
    ensures |r| == |parts|
    ensures forall k :: 0 <= k < |r| ==> r[k] == |parts[k]|
  {
    seq(|parts|, k requires 0 <= k < |parts| => |parts[k]|)
  }

  /** The budget the first `k` parts use: each counts its length plus 10
      (the separator is 7 characters). */
  function Used(lens: seq<nat>, k: nat): nat
    requires k <= |lens|
  {
    if k == 0 then 0 else Used(lens, k - 1) + lens[k - 1] + 10
  }

  /** Part `k` fits when the budget used before it plus its length stays
      within `maxLength`. */
  predicate Fits(lens: seq<nat>, maxLength: int, k: nat)
    requires k < |lens|
  {
    Used(lens, k) + lens[k] <= maxLength
  }

  /** How many leading parts fit before the first that does not. */
  function FitCount(lens: seq<nat>, maxLength: int, from: nat): (f: nat)
    requires from <= |lens|
    requires forall k :: 0 <= k < from ==> Fits(lens, maxLength, k)
    ensures from <= f <= |lens|
    ensures forall k :: 0 <= k < f ==> Fits(lens, maxLength, k)
    ensures f < |lens| ==> !Fits(lens, maxLength, f)
    decreases |lens| - from
  {
    if from == |lens| || !Fits(lens, maxLength, from) then from
    else FitCount(lens, maxLength, from + 1)
  }

  /** The parts kept under the budget: every part before the first that
      does not fit, then that part cut to the remaining budget plus "...",
      when more than 100 characters of budget remain. */
  function Budgeted(parts: seq<string>, maxLength: int): seq<string> {
    var f := FitCount(Lengths(parts), maxLength, 0);
    var remaining := maxLength - Used(Lengths(parts), f);
    if f < |parts| && remaining > 100 then parts[..f] + [parts[f][..remaining] + "..."]
    else parts[..f]
  }

  /** The parts `create_context_from_results` joins. */
  function ContextParts(results: seq<SearchResult>, maxLength: int, includeMetadata: bool): seq<string> {
    Budgeted(AllParts(results, includeMetadata), maxLength)
  }

  /** What `create_context_from_results` returns. */
  function ContextFromResults(results: seq<SearchResult>, maxLength: int, includeMetadata: bool): string {
    Join(ContextParts(results, maxLength, includeMetadata), ContextSeparator)
  }

  /** The first `f` parts are the results' own parts, in order and labelled
      by position; only a last, extra part may be cut, and then it is the
      next result's part cut short with "..." after more than 100
      characters. */
  lemma {:induction false} ContextPartsShape(results: seq<SearchResult>, maxLength: int, includeMetadata: bool)
    ensures var parts := ContextParts(results, maxLength, includeMetadata);
      var f := FitCount(Lengths(AllParts(results, includeMetadata)), maxLength, 0);
      && f <= |parts| <= f + 1
      && (forall k :: 0 <= k < f ==> parts[k] == Part(k, results[k], includeMetadata))
      && (|parts| == f + 1 ==>
            f < |results| && 100 < |parts[f]| - 3 < |Part(f, results[f], includeMetadata)|
            && parts[f] == Part(f, results[f], includeMetadata)[..|parts[f]| - 3] + "...")
  {
    var all := AllParts(results, includeMetadata);
    var f := FitCount(Lengths(all), maxLength, 0);
    var parts := Budgeted(all, maxLength);
    assert forall k :: 0 <= k < f ==> parts[k] == all[k] == Part(k, results[k], includeMetadata);
    if |parts| == f + 1 {
      assert all[f] == Part(f, results[f], includeMetadata);
    }
  }

  /** When every part fits, the context holds every result. */
  lemma {:induction false} ContextKeepsAllThatFit(results: seq<SearchResult>, maxLength: int, includeMetadata: bool)
    requires forall k :: 0 <= k < |results| ==> Fits(Lengths(AllParts(results, includeMetadata)), maxLength, k)
    ensures ContextParts(results, maxLength, includeMetadata) == AllParts(results, includeMetadata)
  {
    BudgetedAll(AllParts(results, includeMetadata), maxLength);
  }

  lemma {:induction false} SumLenSnoc(parts: seq<string>, p: string)
    ensures SumLen(parts + [p]) == SumLen(parts) + |p|
  {
    if parts != [] {
      assert (parts + [p])[1..] == parts[1..] + [p];
      SumLenSnoc(parts[1..], p);
    }
  }

  /** The budget of `k` parts is their total length plus 10 per part. */
  lemma {:induction false} UsedIsSumLen(parts: seq<string>, k: nat)
    requires k <= |parts|
    ensures Used(Lengths(parts), k) == SumLen(parts[..k]) + 10 * k
  {
    if k > 0 {
      UsedIsSumLen(parts, k - 1);
      assert parts[..k] == parts[..k - 1] + [parts[k - 1]];
      SumLenSnoc(parts[..k - 1], parts[k - 1]);
    }
  }

  /** A budgeted join is at most `maxLength + 3` characters (or empty), and
      it is longer than `maxLength` only when it is the first part cut short. */
  lemma {:induction false} BudgetedLength(parts: seq<string>, maxLength: int)
    ensures var c := Join(Budgeted(parts, maxLength), ContextSeparator);
      c == [] || |c| <= maxLength + 3
    ensures var c := Join(Budgeted(parts, maxLength), ContextSeparator);
      |c| > maxLength ==>
        c == [] || (|parts| > 0 && 100 < maxLength < |parts[0]| && c == parts[0][..maxLength] + "...")
  {
    var kept := Budgeted(parts, maxLength);
    var f := FitCount(Lengths(parts), maxLength, 0);
    JoinLength(kept, ContextSeparator);
    if |kept| == f + 1 {
      CutLength(parts, maxLength, f);
      if f == 0 {
        assert kept == [kept[0]];
      }
    } else if f > 0 {
      FullLength(parts, maxLength, f);
    }
  }

  /** Length of a budgeted list whose last part was cut: the budget plus 3,
      less 3 for every full part before it. */
  lemma {:induction false} CutLength(parts: seq<string>, maxLength: int, f: nat)
    requires f == FitCount(Lengths(parts), maxLength, 0)
    requires |Budgeted(parts, maxLength)| == f + 1
    ensures f < |parts|
    ensures SumLen(Budgeted(parts, maxLength)) + 7 * f == maxLength + 3 - 3 * f
  {
    var kept := Budgeted(parts, maxLength);
    UsedIsSumLen(parts, f);
    assert kept == parts[..f] + [kept[f]];
    SumLenSnoc(parts[..f], kept[f]);
  }

  /** Length of `f > 0` parts that all fit: within the budget. */
  lemma {:induction false} FullLength(parts: seq<string>, maxLength: int, f: nat)
    requires 0 < f == FitCount(Lengths(parts), maxLength, 0)
    ensures SumLen(parts[..f]) + 7 * (f - 1) <= maxLength
  {
    UsedIsSumLen(parts, f - 1);
    assert parts[..f] == parts[..f - 1] + [parts[f - 1]];
    SumLenSnoc(parts[..f - 1], parts[f - 1]);
    assert Fits(Lengths(parts), maxLength, f - 1);
  }

  /** The context is at most `maxLength + 3` characters (or empty), and it
      is longer than `maxLength` only when it is the first result's part cut
      short. */
  lemma {:induction false} ContextLength(results: seq<SearchResult>, maxLength: int, includeMetadata: bool)
    ensures var c := ContextFromResults(results, maxLength, includeMetadata);
      c == [] || |c| <= maxLength + 3
    ensures var c := ContextFromResults(results, maxLength, includeMetadata);
      |c| > maxLength ==>
        c == [] || (|results| > 0 && 100 < maxLength < |Part(0, results[0], includeMetadata)|
                    && c == Part(0, results[0], includeMetadata)[..maxLength] + "...")
  {
    BudgetedLength(AllParts(results, includeMetadata), maxLength);
  }

  /** `create_context_from_results`: a loop that adds parts while they fit
      and stops at the first that does not. */
  method CreateContextFromResults(results: seq<SearchResult>, maxLength: int, includeMetadata: bool)
    returns (context: string)
    ensures context == ContextFromResults(results, maxLength, includeMetadata)
  {
    ghost var all := AllParts(results, includeMetadata);
    ghost var lens := Lengths(all);
    var parts: seq<string> := [];
    var currentLength := 0;
    var i := 0;
    while i < |results|
      invariant i <= |results|
      invariant parts == all[..i]
      invariant currentLength == Used(lens, i)
      invariant forall k :: 0 <= k < i ==> Fits(lens, maxLength, k)
    {
      var part := Part(i, results[i], includeMetadata);
      assert part == all[i] && |part| == lens[i];
      if currentLength + |part| > maxLength {
        var remaining := maxLength - currentLength;
        if remaining > 100 {
          parts := parts + [part[..remaining] + "..."];
        }
        BudgetedStop(all, maxLength, i);
        break;
      }
      parts := parts + [part];
      currentLength := currentLength + |part| + 10;
      i := i + 1;
      assert parts == all[..i];
    }
    if i == |results| {
      BudgetedAll(all, maxLength);
      assert parts == all;
    }
    context := Join(parts, ContextSeparator);
  }

  /** The kept parts when part `i` is the first that does not fit. */
  lemma {:induction false} BudgetedStop(parts: seq<string>, maxLength: int, i: nat)
    requires i < |parts|
    requires forall k :: 0 <= k < i ==> Fits(Lengths(parts), maxLength, k)
    requires !Fits(Lengths(parts), maxLength, i)
    ensures var remaining := maxLength - Used(Lengths(parts), i);
      Budgeted(parts, maxLength)
      == if remaining > 100 then parts[..i] + [parts[i][..remaining] + "..."] else parts[..i]
  {
    FitCountFirstMiss(Lengths(parts), maxLength, i);
  }

  /** When every part fits, all are kept. */
  lemma {:induction false} BudgetedAll(parts: seq<string>, maxLength: int)
    requires forall k :: 0 <= k < |parts| ==> Fits(Lengths(parts), maxLength, k)
    ensures Budgeted(parts, maxLength) == parts
  {
    assert parts[..|parts|] == parts;
  }

  /** The fit count is the index of the first part that does not fit. */
  lemma {:induction false} FitCountFirstMiss(lens: seq<nat>, maxLength: int, i: nat)
    requires i < |lens|
    requires forall k :: 0 <= k < i ==> Fits(lens, maxLength, k)
    requires !Fits(lens, maxLength, i)
    ensures FitCount(lens, maxLength, 0) == i
  {
  }

  // ---------------------------------------------------------------------
  // `create_chat_messages`
  // ---------------------------------------------------------------------

  /** The messages `create_chat_messages` builds. */
  function ChatMessages(question: string, context: string, chatHistory: seq<Message>): seq<Message> {
    [Message("system", SystemPrompt)] + Last(chatHistory, 6)
      + [Message("user", CreateRagPrompt(question, context, "default"))]
  }

  /** `create_chat_messages`: the system prompt, the last six history
      messages in order, then the question with its context in the RAG
      template. */
  method CreateChatMessages(question: string, context: string, chatHistory: seq<Message>)
    returns (messages: seq<Message>)
    ensures messages == ChatMessages(question, context, chatHistory)
    ensures 2 <= |messages| <= 8
    ensures messages[0] == Message("system", SystemPrompt)
    ensures messages[1..|messages| - 1] == Last(chatHistory, 6)
    ensures messages[|messages| - 1] == Message("user", CreateRagPrompt(question, context, "default"))
  {
    messages := [Message("system", SystemPrompt)];
    if chatHistory != [] {
      var recent := Last(chatHistory, 6);
      var i := 0;
      while i < |recent|
        invariant i <= |recent|
        invariant messages == [Message("system", SystemPrompt)] + recent[..i]
      {
        messages := messages + [recent[i]];
        i := i + 1;
      }
      assert recent[..i] == recent;
    }
    var userMessage := CreateRagPrompt(question, context, "default");
    messages := messages + [Message("user", userMessage)];
  }

  // ---------------------------------------------------------------------
  // `format_answer`: cleaning the answer
  // ---------------------------------------------------------------------

  /** The stock phrases removed from an answer, in the order they are
      removed. */
  const UnwantedPhrases: seq<string> := [
    "위의 문서를 통해",
    "위의 참고 문서를 분석하여",
    "위의 문서에서",
    "참고 문서에서 찾을 수 있습니다",
    "참고 문서를 통해",
    "위 문서에서",
    "제공된 문서를 통해",
    "위의 문서에서 다음 세 가지를 통해",
    "위의 문서에서 다음과 같이 설명할 수 있습니다",
    "위의 문서를 분석하여",
    "참고 문서를 분석하여"
  ]

  predicate NonEmptyPhrases(phrases: seq<string>) {
    forall k :: 0 <= k < |phrases| ==> phrases[k] != []
  }

  lemma {:induction false} UnwantedPhrasesNonEmpty()
    ensures |UnwantedPhrases| == 11 && NonEmptyPhrases(UnwantedPhrases)
  {
  }

  /** One round of the phrase loop: delete the phrase, then the phrase
      followed by a space, then the phrase preceded by a space. */
  function RemovePhrase(s: string, phrase: string): string
    requires phrase != []
  {
    Replace(Replace(Replace(s, phrase, ""), phrase + " ", ""), " " + phrase, "")
  }

  /** Every phrase removed in turn. */
  function RemovePhrases(s: string, phrases: seq<string>): string
    requires NonEmptyPhrases(phrases)
    decreases |phrases|
  {
    if phrases == [] then s else RemovePhrases(RemovePhrase(s, phrases[0]), phrases[1..])
  }

  /** Removing phrases never lengthens the answer. */
  lemma {:induction false} RemovePhrasesShrinks(s: string, phrases: seq<string>)
    requires NonEmptyPhrases(phrases)
    ensures |RemovePhrases(s, phrases)| <= |s|
    decreases |phrases|
  {
    if phrases != [] {
      var p := phrases[0];
      ReplaceByEmptyShrinks(s, p);
      ReplaceByEmptyShrinks(Replace(s, p, ""), p + " ");
      ReplaceByEmptyShrinks(Replace(Replace(s, p, ""), p + " ", ""), " " + p);
      RemovePhrasesShrinks(RemovePhrase(s, p), phrases[1..]);
    }
  }

  /** An answer in which no phrase occurs is left as it is. */
  lemma {:induction false} RemovePhrasesAbsent(s: string, phrases: seq<string>)
    requires NonEmptyPhrases(phrases)
    requires forall k :: 0 <= k < |phrases| ==> !Contains(s, phrases[k])
    ensures RemovePhrases(s, phrases) == s
    decreases |phrases|
  {
    if phrases != [] {
      var p := phrases[0];
      ReplaceAbsent(s, p, "");
      if Contains(s, p + " ") {
        assert "" + p + " " == p + " ";
        ContainsInner(s, "", p, " ");
        assert false;
      }
      ReplaceAbsent(s, p + " ", "");
      if Contains(s, " " + p) {
        assert " " + p + "" == " " + p;
        ContainsInner(s, " ", p, "");
        assert false;
      }
      ReplaceAbsent(s, " " + p, "");
      RemovePhrasesAbsent(s, phrases[1..]);
    }
  }

  /** No whitespace other than single plain spaces. */
  predicate SingleSpaced(s: string) {
    forall i :: 0 <= i < |s| && IsSpace(s[i]) ==> s[i] == ' ' && (i + 1 < |s| ==> !IsSpace(s[i + 1]))
  }

  /** `re.sub(r'\s+', ' ', s)`: every maximal run of whitespace becomes one
      space. */
  function CollapseWs(s: string): (r: string)
    ensures SingleSpaced(r)
    ensures |r| <= |s|
    ensures s == [] <==> r == []
    ensures s != [] ==> (IsSpace(r[0]) <==> IsSpace(s[0]))
    decreases |s|
  {
    if s == [] then []
    else if IsSpace(s[0]) then
      var rest := CollapseWs(s[StartWs(s)..]);
      " " + rest
    else
      [s[0]] + CollapseWs(s[1..])
  }

  /** The characters of `s` that are not whitespace, in order. */
  function NonSpace(s: string): (r: string)
    decreases |s|
  {
    if s == [] then [] else (if IsSpace(s[0]) then [] else [s[0]]) + NonSpace(s[1..])
  }

  lemma {:induction false} NonSpaceAllSpace(s: string)
    requires AllSpace(s)
    ensures NonSpace(s) == []
    decreases |s|
  {
    if s != [] {
      assert AllSpace(s[1..]) by {
        assert forall i :: 0 <= i < |s[1..]| ==> s[1..][i] == s[i + 1];
      }
      NonSpaceAllSpace(s[1..]);
    }
  }

  lemma {:induction false} NonSpaceConcat(a: string, b: string)
    ensures NonSpace(a + b) == NonSpace(a) + NonSpace(b)
    decreases |a|
  {
    if a == [] {
      assert a + b == b;
    } else {
      assert (a + b)[0] == a[0] && (a + b)[1..] == a[1..] + b;
      NonSpaceConcat(a[1..], b);
    }
  }

  /** Collapsing whitespace changes only whitespace: the other characters
      are kept, in order. */
  lemma {:induction false} CollapseKeepsText(s: string)
    ensures NonSpace(CollapseWs(s)) == NonSpace(s)
    decreases |s|
  {
    if s != [] {
      if IsSpace(s[0]) {
        var n := StartWs(s);
        CollapseKeepsText(s[n..]);
        assert s == s[..n] + s[n..];
        NonSpaceConcat(s[..n], s[n..]);
        NonSpaceAllSpace(s[..n]);
        NonSpaceConcat(" ", CollapseWs(s[n..]));
      } else {
        CollapseKeepsText(s[1..]);
        NonSpaceConcat([s[0]], CollapseWs(s[1..]));
      }
    }
  }

  /** A text already single-spaced is left as it is: collapsing is
      idempotent. */
  lemma {:induction false} CollapseSingleSpaced(s: string)
    requires SingleSpaced(s)
    ensures CollapseWs(s) == s
    decreases |s|
  {
    if s != [] {
      assert SingleSpaced(s[1..]) by {
        assert forall i :: 0 <= i < |s[1..]| ==> s[1..][i] == s[i + 1];
      }
      if IsSpace(s[0]) {
        assert StartWs(s) == 1;
      }
      CollapseSingleSpaced(s[1..]);
    }
  }

  /** A slice of a single-spaced text is single-spaced. */
  lemma {:induction false} SingleSpacedSlice(s: string, a: nat, b: nat)
    requires a <= b <= |s| && SingleSpaced(s)
    ensures SingleSpaced(s[a..b])
  {
    assert forall i :: 0 <= i < b - a ==> s[a..b][i] == s[a + i];
  }

  /** The answer text `format_answer` keeps: stripped, stock phrases
      removed, whitespace runs collapsed to one space, stripped again. The
      result has no leading or trailing whitespace, no whitespace but single
      plain spaces (newlines included), and is no longer than the answer. */
  function CleanAnswer(answer: string): (r: string)
    ensures IsStripped(r)
    ensures SingleSpaced(r)
    ensures |r| <= |answer|
  {
    var removed := RemovePhrases(Strip(answer), UnwantedPhrases);
    RemovePhrasesShrinks(Strip(answer), UnwantedPhrases);
    StripCollapsed(removed);
    Strip(CollapseWs(removed))
  }

  /** Stripping a collapsed text leaves it single-spaced. */
  lemma {:induction false} StripCollapsed(s: string)
    ensures IsStripped(Strip(CollapseWs(s)))
    ensures SingleSpaced(Strip(CollapseWs(s)))
    ensures |Strip(CollapseWs(s))| <= |s|
  {
    var collapsed := CollapseWs(s);
    StripIsSlice(collapsed);
    var a, b :| 0 <= a <= b <= |collapsed| && Strip(collapsed) == collapsed[a..b];
    SingleSpacedSlice(collapsed, a, b);
  }

  /** A clean answer (stripped, single-spaced, free of every stock phrase)
      is returned unchanged. */
  lemma {:induction false} CleanAnswerFixed(answer: string)
    requires IsStripped(answer) && SingleSpaced(answer)
    requires forall k :: 0 <= k < |UnwantedPhrases| ==> !Contains(answer, UnwantedPhrases[k])
    ensures CleanAnswer(answer) == answer
  {
    StripStripped(answer);
    RemovePhrasesAbsent(answer, UnwantedPhrases);
    CollapseSingleSpaced(answer);
  }

  /** The phrase loop of `format_answer`. */
  method RemoveUnwanted(answer: string) returns (r: string)
    ensures r == RemovePhrases(answer, UnwantedPhrases)
  {
    UnwantedPhrasesNonEmpty();
    r := answer;
    var i := 0;
    while i < |UnwantedPhrases|
      invariant i <= |UnwantedPhrases|
      invariant RemovePhrases(r, UnwantedPhrases[i..]) == RemovePhrases(answer, UnwantedPhrases)
    {
      var phrase := UnwantedPhrases[i];
      assert UnwantedPhrases[i..][1..] == UnwantedPhrases[i + 1..];
      r := Replace(Replace(Replace(r, phrase, ""), phrase + " ", ""), " " + phrase, "");
      i := i + 1;
    }
  }

  // ---------------------------------------------------------------------
  // `format_answer`: the source citations
  // ---------------------------------------------------------------------

  const SourcesHeader := "\n\n---\n📚 참고 출처:\n"
  const UnknownDocument := "알 수 없는 문서"

  /** The file name shown for a source: its `source_file` with ".json" and
      ".txt" removed, or "알 수 없는 문서" when it has none. */
  function SourceName(src: SearchResult): string {
    var file := src.metadata.sourceFile.GetOr("");
    if file != "" then Replace(Replace(file, ".json", ""), ".txt", "") else UnknownDocument
  }

  /** The `page_sources` dictionary (its keys in insertion order, and the
      page list of each) and the `seen_sources` set. */
  datatype Citations = Citations(names: seq<string>, pages: map<string, seq<int>>, seen: set<(string, int)>)

  const NoCitations := Citations([], map[], {})

  /** One iteration of the source loop: the file's key is added when new;
      the page is added to it unless it is missing or the (file, page) pair
      was seen. */
  function AddSource(c: Citations, src: SearchResult): Citations {
    var name := SourceName(src);
    var c1 := if name in c.pages then c else Citations(c.names + [name], c.pages[name := []], c.seen);
    match src.metadata.pageNumber
    case None => c1
    case Some(p) =>
      if (name, p) in c1.seen then c1
      else Citations(c1.names, c1.pages[name := c1.pages[name] + [p]], c1.seen + {(name, p)})
  }

  /** The citations gathered from the sources, in order. */
  function CollectCitations(srcs: seq<SearchResult>): Citations
    decreases |srcs|
  {
    if srcs == [] then NoCitations
    else AddSource(CollectCitations(srcs[..|srcs| - 1]), srcs[|srcs| - 1])
  }

  /** The file name of every source, in order. */
  function Names(srcs: seq<SearchResult>): (r: seq<string>)
    ensures |r| == |srcs|
    ensures forall k :: 0 <= k < |r| ==> r[k] == SourceName(srcs[k])
  {
    seq(|srcs|, k requires 0 <= k < |srcs| => SourceName(srcs[k]))
  }

  /** Some source names the file and gives the page. */
  predicate Cites(srcs: seq<SearchResult>, name: string, page: int) {
    exists k :: 0 <= k < |srcs| && SourceName(srcs[k]) == name && srcs[k].metadata.pageNumber == Some(page)
  }

  /** The index of the first occurrence of `x`. */
  function FirstIndex<T(==)>(xs: seq<T>, x: T): (i: nat)
    requires x in xs
    ensures i < |xs| && xs[i] == x
    ensures forall j :: 0 <= j < i ==> xs[j] != x
  {
    if xs[0] == x then 0 else 1 + FirstIndex(xs[1..], x)
  }

  /** The keys are ordered by where they first occur among `all`. */
  predicate FirstSeenOrder(keys: seq<string>, all: seq<string>) {
    forall a, b :: 0 <= a < b < |keys| ==>
      keys[a] in all && keys[b] in all && FirstIndex(all, keys[a]) < FirstIndex(all, keys[b])
  }

  /** The dictionary keys are the names, without repeats; every page list
      is without repeats; the seen set holds exactly the listed pairs. */
  ghost predicate Consistent(c: Citations) {
    && Distinct(c.names)
    && (forall n :: n in c.pages <==> n in c.names)
    && (forall n :: n in c.pages ==> Distinct(c.pages[n]))
    && (forall n, p :: (n, p) in c.seen <==> n in c.pages && p in c.pages[n])
  }

  /** What the citations say about the sources they were gathered from. */
  ghost predicate Describes(c: Citations, srcs: seq<SearchResult>) {
    && Consistent(c)
    && (forall n :: n in c.names <==> n in Names(srcs))
    && (forall n, p :: n in c.pages ==> (p in c.pages[n] <==> Cites(srcs, n, p)))
    && FirstSeenOrder(c.names, Names(srcs))
  }

  lemma {:induction false} FirstIndexSnoc(xs: seq<string>, y: string, x: string)
    requires x in xs
    ensures FirstIndex(xs + [y], x) == FirstIndex(xs, x)
  {
    var i := FirstIndex(xs, x);
    assert (xs + [y])[i] == x;
  }

  lemma {:induction false} FirstIndexNew(xs: seq<string>, y: string)
    requires y !in xs
    ensures FirstIndex(xs + [y], y) == |xs|
  {
    assert (xs + [y])[|xs|] == y;
  }

  lemma {:induction false} CitesSnoc(srcs: seq<SearchResult>, s: SearchResult, name: string, page: int)
    ensures Cites(srcs + [s], name, page)
      <==> Cites(srcs, name, page) || (SourceName(s) == name && s.metadata.pageNumber == Some(page))
  {
    var all := srcs + [s];
    if Cites(all, name, page) {
      var k :| 0 <= k < |all| && SourceName(all[k]) == name && all[k].metadata.pageNumber == Some(page);
      if k < |srcs| {
        assert all[k] == srcs[k];
      }
    }
    if Cites(srcs, name, page) {
      var k :| 0 <= k < |srcs| && SourceName(srcs[k]) == name && srcs[k].metadata.pageNumber == Some(page);
      assert all[k] == srcs[k];
    }
    if SourceName(s) == name && s.metadata.pageNumber == Some(page) {
      assert all[|srcs|] == s;
    }
  }

  /** Adding a source keeps the citations consistent. */
  lemma {:induction false} AddSourceConsistent(c: Citations, src: SearchResult)
    requires Consistent(c)
    ensures Consistent(AddSource(c, src))
    ensures AddSource(c, src).names == if SourceName(src) in c.names then c.names else c.names + [SourceName(src)]
    ensures forall n, p :: n in AddSource(c, src).pages ==>
      (p in AddSource(c, src).pages[n]
       <==> (n in c.pages && p in c.pages[n]) || (n == SourceName(src) && src.metadata.pageNumber == Some(p)))
  {
    var name := SourceName(src);
    var c1 := if name in c.pages then c else Citations(c.names + [name], c.pages[name := []], c.seen);
    assert Consistent(c1) by {
      if name !in c.pages {
        assert forall k :: 0 <= k < |c.names| ==> c.names[k] in c.pages;
      }
    }
    assert forall n, p :: n in c1.pages ==> (p in c1.pages[n] <==> n in c.pages && p in c.pages[n]);
    match src.metadata.pageNumber
    case None =>
    case Some(p) =>
      if (name, p) !in c1.seen {
        var c2 := AddSource(c, src);
        assert c2.pages[name] == c1.pages[name] + [p];
        assert Distinct(c2.pages[name]) by {
          assert p !in c1.pages[name];
        }
      }
  }

  /** One more source: what the citations say carries over. */
  lemma {:induction false} DescribesSnoc(c: Citations, srcs: seq<SearchResult>, s: SearchResult)
    requires Describes(c, srcs)
    ensures Describes(AddSource(c, s), srcs + [s])
  {
    AddSourceConsistent(c, s);
    assert Names(srcs + [s]) == Names(srcs) + [SourceName(s)];
    PagesSnoc(c, srcs, s);
    OrderSnoc(c, srcs, s);
  }

  lemma {:induction false} PagesSnoc(c: Citations, srcs: seq<SearchResult>, s: SearchResult)
    requires Describes(c, srcs)
    requires forall n, p :: n in AddSource(c, s).pages ==>
      (p in AddSource(c, s).pages[n]
       <==> (n in c.pages && p in c.pages[n]) || (n == SourceName(s) && s.metadata.pageNumber == Some(p)))
    ensures forall n, p :: n in AddSource(c, s).pages ==> (p in AddSource(c, s).pages[n] <==> Cites(srcs + [s], n, p))
  {
    var c2 := AddSource(c, s);
    forall n, p | n in c2.pages ensures p in c2.pages[n] <==> Cites(srcs + [s], n, p) {
      CitesSnoc(srcs, s, n, p);
    }
  }

  lemma {:induction false} OrderSnoc(c: Citations, srcs: seq<SearchResult>, s: SearchResult)
    requires Describes(c, srcs)
    requires AddSource(c, s).names == if SourceName(s) in c.names then c.names else c.names + [SourceName(s)]
    requires Names(srcs + [s]) == Names(srcs) + [SourceName(s)]
    ensures FirstSeenOrder(AddSource(c, s).names, Names(srcs + [s]))
  {
    FirstSeenSnoc(c.names, Names(srcs), SourceName(s));
  }

  /** A key seen for the first time goes after every earlier key. */
  lemma {:induction false} FirstSeenSnoc(keys: seq<string>, all: seq<string>, y: string)
    requires FirstSeenOrder(keys, all)
    requires forall n :: n in keys <==> n in all
    ensures FirstSeenOrder(if y in keys then keys else keys + [y], all + [y])
  {
    var keys2 := if y in keys then keys else keys + [y];
    forall a, b | 0 <= a < b < |keys2|
      ensures keys2[a] in all + [y] && keys2[b] in all + [y]
        && FirstIndex(all + [y], keys2[a]) < FirstIndex(all + [y], keys2[b])
    {
      assert keys2[a] == keys[a];
      FirstIndexSnoc(all, y, keys[a]);
      if b < |keys| {
        assert keys2[b] == keys[b];
        FirstIndexSnoc(all, y, keys[b]);
      } else {
        FirstIndexNew(all, y);
      }
    }
  }

  /** The gathered citations hold every file named by a source, once each
      and in first-seen order, and for each file exactly the pages the
      sources give for it, once each; missing pages are left out. */
  lemma {:induction false} CollectCitationsCorrect(srcs: seq<SearchResult>)
    ensures Describes(CollectCitations(srcs), srcs)
    decreases |srcs|
  {
    if srcs == [] {
      assert Names(srcs) == [];
    } else {
      var init := srcs[..|srcs| - 1];
      CollectCitationsCorrect(init);
      DescribesSnoc(CollectCitations(init), init, srcs[|srcs| - 1]);
      assert init + [srcs[|srcs| - 1]] == srcs;
    }
  }

  /** The source loop of `format_answer`: fills the `page_sources`
      dictionary (kept as its keys in insertion order and a map) and the
      `seen_sources` set. */
  method GatherCitations(srcs: seq<SearchResult>) returns (c: Citations)
    ensures c == CollectCitations(srcs)
  {
    var names: seq<string> := [];
    var pageSources: map<string, seq<int>> := map[];
    var seenSources: set<(string, int)> := {};
    var i := 0;
    while i < |srcs|
      invariant i <= |srcs|
      invariant Citations(names, pageSources, seenSources) == CollectCitations(srcs[..i])
    {
      var source := srcs[i];
      var pdfName := SourceName(source);
      if pdfName !in pageSources {
        names := names + [pdfName];
        pageSources := pageSources[pdfName := []];
      }
      match source.metadata.pageNumber {
        case None =>
        case Some(page) =>
          if (pdfName, page) !in seenSources {
            seenSources := seenSources + {(pdfName, page)};
            pageSources := pageSources[pdfName := pageSources[pdfName] + [page]];
          }
      }
      assert srcs[..i + 1][..i] == srcs[..i];
      i := i + 1;
    }
    assert srcs[..i] == srcs;
    c := Citations(names, pageSources, seenSources);
  }

  // ---------------------------------------------------------------------
  // Sorting the pages and writing the lines
  // ---------------------------------------------------------------------

  predicate SortedAsc(xs: seq<int>) {
    forall i, j :: 0 <= i < j < |xs| ==> xs[i] <= xs[j]
  }

  predicate Increasing(xs: seq<int>) {
    forall i, j :: 0 <= i < j < |xs| ==> xs[i] < xs[j]
  }

  /** How many leading elements of `ys` are smaller than `x`. */
  function AscPos(x: int, ys: seq<int>): (p: nat)
    ensures p <= |ys|
    ensures forall k :: 0 <= k < p ==> ys[k] < x
    ensures p < |ys| ==> x <= ys[p]
    decreases |ys|
  {
    if ys == [] || x <= ys[0] then 0 else 1 + AscPos(x, ys[1..])
  }

  /** Insert `x` into an ascending list before the first element not
      smaller than it. */
  function InsertAsc(x: int, ys: seq<int>): (r: seq<int>)
    ensures multiset(r) == multiset(ys) + multiset{x}
  {
    var p := AscPos(x, ys);
    assert ys == ys[..p] + ys[p..];
    ys[..p] + [x] + ys[p..]
  }

  /** Python's `sorted(pages)` on integers. */
  function SortAsc(xs: seq<int>): (r: seq<int>)
    ensures multiset(r) == multiset(xs)
    decreases |xs|
  {
    if xs == [] then []
    else
      assert xs == [xs[0]] + xs[1..];
      InsertAsc(xs[0], SortAsc(xs[1..]))
  }

  lemma {:induction false} InsertAscSorted(x: int, ys: seq<int>)
    requires SortedAsc(ys)
    ensures SortedAsc(InsertAsc(x, ys))
    ensures x !in ys && Increasing(ys) ==> Increasing(InsertAsc(x, ys))
  {
    var p := AscPos(x, ys);
    var r := InsertAsc(x, ys);
    assert r == ys[..p] + [x] + ys[p..];
    assert |r| == |ys| + 1;
    assert forall k :: 0 <= k < p ==> r[k] == ys[k];
    assert r[p] == x;
    assert forall k :: p < k < |r| ==> r[k] == ys[k - 1];
    forall i, j | 0 <= i < j < |r| ensures r[i] <= r[j] {
      if j < p || p < i {
      } else if i == p {
        assert x <= ys[p] <= ys[j - 1];
      } else if j == p {
        assert ys[i] < x;
      } else {
        assert ys[i] < x <= ys[p] <= ys[j - 1];
      }
    }
    if x !in ys && Increasing(ys) {
      assert p < |ys| ==> x < ys[p];
      forall i, j | 0 <= i < j < |r| ensures r[i] < r[j] {
        if j < p || p < i {
        } else if i == p {
          assert x < ys[p] <= ys[j - 1];
        } else if j == p {
          assert ys[i] < x;
        } else {
          assert ys[i] < x < ys[p] <= ys[j - 1];
        }
      }
    }
  }

  /** The sorted pages are in ascending order, the same pages as before;
      pages without repeats come out strictly increasing. */
  lemma {:induction false} SortAscCorrect(xs: seq<int>)
    ensures SortedAsc(SortAsc(xs))
    ensures multiset(SortAsc(xs)) == multiset(xs)
    ensures Distinct(xs) ==> Increasing(SortAsc(xs))
    decreases |xs|
  {
    if xs != [] {
      var rest := SortAsc(xs[1..]);
      SortAscCorrect(xs[1..]);
      if Distinct(xs) {
        assert Distinct(xs[1..]);
        assert xs[0] !in rest by {
          assert xs[0] !in multiset(xs[1..]);
        }
      }
      InsertAscSorted(xs[0], rest);
    }
  }

  /** `", ".join(str(p) for p in pages)`. */
  function PagesText(pages: seq<int>): string {
    Join(seq(|pages|, k requires 0 <= k < |pages| => IntToString(pages[k])), ", ")
  }

  function PagesOf(c: Citations, name: string): seq<int> {
    if name in c.pages then c.pages[name] else []
  }

  /** The line for one file: its name and its pages, sorted. */
  function CitationLine(name: string, pages: seq<int>): string {
    "  • " + name + " (페이지 " + PagesText(SortAsc(pages)) + ")\n"
  }

  /** One line per file, in the dictionary's order. */
  function CitationLines(c: Citations, n: nat): string
    requires n <= |c.names|
  {
    if n == 0 then "" else CitationLines(c, n - 1) + CitationLine(c.names[n - 1], PagesOf(c, c.names[n - 1]))
  }

  /** What `format_answer` returns: the cleaned answer, then, when there are
      sources, the header and one line per file cited by the first five. */
  function FormattedAnswer(answer: string, sources: seq<SearchResult>): string {
    if sources == [] then CleanAnswer(answer)
    else
      var c := CollectCitations(Take(sources, 5));
      CleanAnswer(answer) + SourcesHeader + CitationLines(c, |c.names|)
  }

  /** Only the first five sources matter. */
  lemma {:induction false} FormattedAnswerFirstFive(answer: string, sources: seq<SearchResult>)
    ensures FormattedAnswer(answer, sources) == FormattedAnswer(answer, Take(sources, 5))
  {
    assert Take(Take(sources, 5), 5) == Take(sources, 5);
  }

  /** The pages printed for a cited file are strictly increasing and are
      exactly the pages the sources give for that file. */
  lemma {:induction false} CitationPages(srcs: seq<SearchResult>, name: string)
    requires name in CollectCitations(srcs).names
    ensures Increasing(SortAsc(PagesOf(CollectCitations(srcs), name)))
    ensures forall p :: p in SortAsc(PagesOf(CollectCitations(srcs), name)) <==> Cites(srcs, name, p)
  {
    var c := CollectCitations(srcs);
    CollectCitationsCorrect(srcs);
    var pages := PagesOf(c, name);
    SortAscCorrect(pages);
    forall p ensures p in SortAsc(pages) <==> p in pages {
      assert p in SortAsc(pages) <==> p in multiset(SortAsc(pages));
    }
  }

  /** The output loop of `format_answer`: one line per file. */
  method WriteCitations(c: Citations) returns (text: string)
    ensures text == CitationLines(c, |c.names|)
  {
    text := "";
    var i := 0;
    while i < |c.names|
      invariant i <= |c.names|
      invariant text == CitationLines(c, i)
    {
      var pdfName := c.names[i];
      var pages := SortAsc(PagesOf(c, pdfName));
      var pagesStr := PagesText(pages);
      var line := "  • " + pdfName + " (페이지 " + pagesStr + ")\n";
      text := text + line;
      i := i + 1;
    }
  }

  /** `format_answer`. */
  method FormatAnswer(answer: string, sources: seq<SearchResult>) returns (formatted: string)
    ensures formatted == FormattedAnswer(answer, sources)
    ensures sources == [] ==> formatted == CleanAnswer(answer)
  {
    var cleaned := RemoveUnwanted(Strip(answer));
    cleaned := Strip(CollapseWs(cleaned));
    formatted := cleaned;
    if sources != [] {
      formatted := formatted + SourcesHeader;
      var c := GatherCitations(Take(sources, 5));
      var lines := WriteCitations(c);
      formatted := formatted + lines;
    }
  }
}
