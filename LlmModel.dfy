/**
 * The language-model layer: the provider lookup, the two serialisers that
 * flatten a chat into one prompt for models without a chat interface, and
 * the rule-based responder used when no model is available.
 */
module LlmModel {
  import opened Common
  import opened Text
  import opened Prompt

  // ---------------------------------------------------------------------
  // `get_llm`
  // ---------------------------------------------------------------------

  /** The six registered providers. */
  datatype Provider = Simple | Ollama | OpenAI | HuggingFace | Gemini | Groq

  /** The key a provider is registered under. */
  function ProviderKey(p: Provider): string {
    match p
    case Simple => "simple"
    case Ollama => "ollama"
    case OpenAI => "openai"
    case HuggingFace => "huggingface"
    case Gemini => "gemini"
    case Groq => "groq"
  }

  /** `get_llm`: the provider registered under `name`; a name no provider is
      registered under falls back to the rule-based one. */
  function GetLlm(name: string): (p: Provider)
    ensures ProviderKey(p) == name || (p == Simple && forall q: Provider :: ProviderKey(q) != name)
  {
    if name == "ollama" then Ollama
    else if name == "openai" then OpenAI
    else if name == "huggingface" then HuggingFace
    else if name == "gemini" then Gemini
    else if name == "groq" then Groq
    else Simple
  }

  /** Every provider is found again under its own key. */
  lemma {:induction false} GetLlmKey(p: Provider)
    ensures GetLlm(ProviderKey(p)) == p
  {
    match p
    case Simple =>
      assert "simple"[0] == 's';
    case Ollama =>
    case OpenAI =>
      assert "openai"[0] != "ollama"[1];
    case HuggingFace =>
    case Gemini =>
    case Groq =>
      assert "groq"[1] != "gemini"[1];
  }

  // ---------------------------------------------------------------------
  // Chat serialisers (`HuggingFaceLLM.chat`, `GeminiLLM.chat`)
  // ---------------------------------------------------------------------

  /** The two ways a chat is flattened into a single prompt. */
  datatype ChatFormat = HuggingFaceFormat | GeminiFormat

  /** The header a format writes before a message of `role`; `None` for a
      role it does not know, whose message it skips. */
  function RoleHeader(f: ChatFormat, role: string): Option<string> {
    match f
    case HuggingFaceFormat =>
      if role == "system" then Some("System: ")
      else if role == "user" then Some("User: ")
      else if role == "assistant" then Some("Assistant: ")
      else None
    case GeminiFormat =>
      if role == "system" then Some("[시스템 지시사항]\n")
      else if role == "user" then Some("[사용자]\n")
      else if role == "assistant" then Some("[어시스턴트]\n")
      else None
  }

  /** One message in the flattened prompt: header, content, blank line. */
  function Turn(f: ChatFormat, m: Message): string {
    match RoleHeader(f, m.role)
    case Some(h) => h + m.content + "\n\n"
    case None => ""
  }

  /** The flattened prompt of a whole chat: the turns in order. */
  function Transcript(f: ChatFormat, messages: seq<Message>): string {
    ConcatMap(m => Turn(f, m), messages)
  }

  /** Flattening is compositional: the prompt of two chats one after the
      other is the first prompt followed by the second. */
  lemma {:induction false} TranscriptConcat(f: ChatFormat, a: seq<Message>, b: seq<Message>)
    ensures Transcript(f, a + b) == Transcript(f, a) + Transcript(f, b)
  {
    ConcatMapAppend(m => Turn(f, m), a, b);
  }

  /** The prompt of a single message is that message's turn. */
  lemma {:induction false} TranscriptSingle(f: ChatFormat, m: Message)
    ensures Transcript(f, [m]) == Turn(f, m)
  {
    ConcatMapSingle(m => Turn(f, m), m);
  }

  /** A message whose role the format does not know leaves no trace: the
      prompt is that of the chat without it. */
  lemma {:induction false} TranscriptSkipsUnknown(f: ChatFormat, a: seq<Message>, m: Message, b: seq<Message>)
    requires RoleHeader(f, m.role).None?
    ensures Transcript(f, a + [m] + b) == Transcript(f, a + b)
  {
    TranscriptConcat(f, a + [m], b);
    TranscriptConcat(f, a, [m]);
    TranscriptConcat(f, a, b);
    TranscriptSingle(f, m);
  }

  /** A message of a known role appears in the prompt as its header, its
      content and a blank line, right after the prompt of what precedes it. */
  lemma {:induction false} TranscriptShowsKnown(f: ChatFormat, a: seq<Message>, m: Message, b: seq<Message>)
    requires RoleHeader(f, m.role).Some?
    ensures Transcript(f, a + [m] + b)
         == Transcript(f, a) + (RoleHeader(f, m.role).value + m.content + "\n\n") + Transcript(f, b)
  {
    TranscriptConcat(f, a + [m], b);
    TranscriptConcat(f, a, [m]);
    TranscriptSingle(f, m);
  }

  /** `HuggingFaceLLM.chat`: the transcript followed by an open
      "Assistant: " turn, handed to the model's `generate`. */
  function HuggingFacePrompt(messages: seq<Message>): string {
    Transcript(HuggingFaceFormat, messages) + "Assistant: "
  }

  /** The prompt-building loop of `HuggingFaceLLM.chat`. */
  method HuggingFaceChatPrompt(messages: seq<Message>) returns (prompt: string)
    ensures prompt == HuggingFacePrompt(messages)
  {
    prompt := "";
    var i := 0;
    while i < |messages|
      invariant 0 <= i <= |messages|
      invariant prompt == Transcript(HuggingFaceFormat, messages[..i])
    {
      var role := messages[i].role;
      var content := messages[i].content;
      if role == "system" {
        prompt := prompt + ("System: " + content + "\n\n");
      } else if role == "user" {
        prompt := prompt + ("User: " + content + "\n\n");
      } else if role == "assistant" {
        prompt := prompt + ("Assistant: " + content + "\n\n");
      }
      assert messages[..i + 1][..i] == messages[..i];
      i := i + 1;
    }
    assert messages[..i] == messages;
    prompt := prompt + "Assistant: ";
  }

  /** `HuggingFaceLLM.chat`; the model itself is the parameter `generate`. */
  method HuggingFaceChat(messages: seq<Message>, generate: string -> string) returns (answer: string)
    ensures answer == generate(HuggingFacePrompt(messages))
  {
    var prompt := HuggingFaceChatPrompt(messages);
    answer := generate(prompt);
  }

  const GeminiNoClient := "Gemini 클라이언트가 초기화되지 않았습니다."

  /** What `GeminiLLM.chat` returns for a model reply: its text, or the
      error message the exception handler builds. */
  function GeminiReply(reply: Result<string, string>): string {
    match reply
    case Ok(text) => text
    case Err(e) => "Gemini 응답 오류: " + e
  }

  /** `GeminiLLM.chat`. `hasClient` says whether the client was set up; the
      remote call is the parameter `generateContent`, whose failure carries
      the exception text. */
  method GeminiChat(messages: seq<Message>, hasClient: bool,
                    generateContent: string -> Result<string, string>)
    returns (answer: string)
    ensures !hasClient ==> answer == GeminiNoClient
    ensures hasClient ==> answer == GeminiReply(generateContent(Transcript(GeminiFormat, messages)))
  {
    if !hasClient {
      return GeminiNoClient;
    }
    var prompt := "";
    var i := 0;
    while i < |messages|
      invariant 0 <= i <= |messages|
      invariant prompt == Transcript(GeminiFormat, messages[..i])
    {
      var role := messages[i].role;
      var content := messages[i].content;
      if role == "system" {
        prompt := prompt + ("[시스템 지시사항]\n" + content + "\n\n");
      } else if role == "user" {
        prompt := prompt + ("[사용자]\n" + content + "\n\n");
      } else if role == "assistant" {
        prompt := prompt + ("[어시스턴트]\n" + content + "\n\n");
      }
      assert messages[..i + 1][..i] == messages[..i];
      i := i + 1;
    }
    assert messages[..i] == messages;
    answer := GeminiReply(generateContent(prompt));
  }

  // ---------------------------------------------------------------------
  // `SimpleLLM`
  // ---------------------------------------------------------------------

  const Apology := "죄송합니다. 질문을 이해하지 못했습니다."
  const NoMessages := "메시지가 없습니다."
  const NoQuestion := "알 수 없는 질문"
  const QuestionMarker := "질문:"
  const DocMarker := "[문서"
  const DocOpen := "[문서 "
  const SimpleMarker := "참고 문서:"

  /** The question a prompt asks: the rest of the line after its last
      "질문:", stripped; a fixed placeholder when there is none. */
  function ExtractQuestion(prompt: string): (r: string)
    ensures IsStripped(r)
    ensures forall i :: 0 <= i < |r| ==> r[i] != '\n'
  {
    if Contains(prompt, QuestionMarker) then
      var line := Before(AfterLast(prompt, QuestionMarker), '\n');
      StripAvoids(line, '\n');
      Strip(line)
    else
      assert !IsSpace(NoQuestion[0]) && !IsSpace(NoQuestion[|NoQuestion| - 1]);
      NoQuestion
  }

  /** Length of the longest prefix of `s` whose characters all satisfy `p`. */
  function Span(s: string, p: char -> bool): (n: nat)
    ensures n <= |s|
    ensures forall i :: 0 <= i < n ==> p(s[i])
    ensures n < |s| ==> !p(s[n])
  {
    if s == [] || !p(s[0]) then 0 else 1 + Span(s[1..], p)
  }

  predicate NotBracket(c: char) {
    c != '['
  }

  /** The length of the match of `\[문서 \d+\][^\[]*` at the start of `s`,
      if there is one. The digits and the text are taken greedily; giving
      back a digit never helps, since a digit rather than ']' would follow. */
  function DocMatch(s: string): (r: Option<nat>)
    ensures r.Some? ==> 6 <= r.value <= |s| && IsPrefix(DocOpen, s)
  {
    if !IsPrefix(DocOpen, s) then None
    else
      var d := Span(s[4..], IsDigit);
      if d == 0 || 4 + d >= |s| || s[4 + d] != ']' then None
      else Some(5 + d + Span(s[5 + d..], NotBracket))
  }

  /** `re.findall(r'\[문서 \d+\][^\[]*', s)`: the matches, scanned left to
      right without overlap; each has the shape of the pattern. */
  function FindDocs(s: string): (r: seq<string>)
    ensures forall k :: 0 <= k < |r| ==> DocShaped(r[k])
    decreases |s|
  {
    if s == [] then []
    else match DocMatch(s)
      case Some(n) => DocMatchShaped(s); [s[..n]] + FindDocs(s[n..])
      case None => FindDocs(s[1..])
  }

  /** Each document found opens with "[문서 ", continues with digits and
      ']', and holds no further '['. */
  predicate DocShaped(d: string) {
    IsPrefix(DocOpen, d) && forall i :: 1 <= i < |d| ==> d[i] != '['
  }

  lemma {:induction false} DocMatchShaped(s: string)
    requires DocMatch(s).Some?
    ensures DocShaped(s[..DocMatch(s).value])
  {
    var n := DocMatch(s).value;
    var d := Span(s[4..], IsDigit);
    var t := Span(s[5 + d..], NotBracket);
    forall i | 1 <= i < n
      ensures s[..n][i] != '['
    {
      if i < 4 {
        assert s[..n][i] == DocOpen[i];
      } else if i < 4 + d {
        assert s[4..][i - 4] == s[i];
      } else if i > 4 + d {
        assert s[5 + d..][i - 5 - d] == s[i];
      }
    }
  }

  /** A text without "[문서" has no match, so the guard in front of the
      `findall` call changes nothing. */
  lemma {:induction false} FindDocsNeedsMarker(s: string)
    ensures FindDocs(s) != [] ==> Contains(s, DocMarker)
    decreases |s|
  {
    if s != [] {
      if DocMatch(s).Some? {
        assert s[..|DocMarker|] == s[..|DocOpen|][..|DocMarker|];
      } else {
        FindDocsNeedsMarker(s[1..]);
      }
    }
  }

  /** A position where the pattern matches is not skipped: `findall`
      finds at least one document. */
  lemma {:induction false} FindDocsFinds(s: string, i: nat)
    requires i <= |s| && DocMatch(s[i..]).Some?
    ensures FindDocs(s) != []
    decreases i
  {
    if i > 0 && DocMatch(s).None? {
      assert s[1..][i - 1..] == s[i..];
      FindDocsFinds(s[1..], i - 1);
    }
  }

  /** The documents `_summarize_context` works with: the matches, stripped. */
  function StripAll(docs: seq<string>): (r: seq<string>)
    ensures |r| == |docs| && forall k :: 0 <= k < |r| ==> r[k] == Strip(docs[k])
  {
    if docs == [] then [] else [Strip(docs[0])] + StripAll(docs[1..])
  }

  function Docs(prompt: string): seq<string> {
    if Contains(prompt, DocMarker) then StripAll(FindDocs(prompt)) else []
  }

  /** `doc.split('\n', 1)[-1]`: what follows the first line break, or the
      whole document when it has none. */
  function DocContent(doc: string): (r: string)
    ensures Before(doc, '\n') == doc ==> r == doc
    ensures Before(doc, '\n') != doc ==> doc == Before(doc, '\n') + "\n" + r
  {
    var head := Before(doc, '\n');
    if |head| < |doc| then doc[|head| + 1..] else doc
  }

  /** A document's content cut to 200 characters, marked with "..." when
      something was cut. */
  function Shorten(content: string): (r: string)
    ensures |r| <= 203
    ensures |content| <= 200 ==> r == content
    ensures |content| > 200 ==> |r| == 203 && r[..200] == content[..200] && r[200..] == "..."
  {
    if |content| > 200 then content[..200] + "..." else content
  }

  /** The numbered line for the `i`-th document listed. */
  function DocLine(i: nat, doc: string): string {
    "\n" + NatToString(i) + ". " + Shorten(DocContent(doc)) + "\n"
  }

  /** `g(i, xs[i - 1])` for i = 1, 2, ..., concatenated in order. */
  function Numbered(g: (nat, string) -> string, xs: seq<string>): string
    decreases |xs|
  {
    if xs == [] then "" else Numbered(g, xs[..|xs| - 1]) + g(|xs|, xs[|xs| - 1])
  }

  /** The numbered lines for `docs`, numbered from 1. */
  function DocLines(docs: seq<string>): string {
    Numbered(DocLine, docs)
  }

  function FoundHeader(question: string): string {
    "'" + question + "'에 대한 답변입니다.\n\n" + "참고 문서에 따르면:\n"
  }

  function NotFound(question: string): string {
    "'" + question + "'에 대한 정보를 찾지 못했습니다."
  }

  /** The response `_summarize_context` gives for a question and the
      documents found in the prompt. */
  function SummaryOf(question: string, docs: seq<string>): string {
    if docs != [] then FoundHeader(question) + DocLines(Take(docs, 2))
    else NotFound(question)
  }

  /** `_summarize_context`. */
  function Summary(prompt: string): string {
    SummaryOf(ExtractQuestion(prompt), Docs(prompt))
  }

  /** `SimpleLLM._summarize_context`. */
  method SummarizeContext(prompt: string) returns (response: string)
    ensures response == Summary(prompt)
  {
    var question := ExtractQuestion(prompt);
    var docs := Docs(prompt);
    response := ListDocuments(question, docs);
  }

  /** The response-building part of `_summarize_context`. */
  method ListDocuments(question: string, docs: seq<string>) returns (response: string)
    ensures response == SummaryOf(question, docs)
  {
    if docs == [] {
      return NotFound(question);
    }
    var lines := NumberDocuments(Take(docs, 2));
    response := FoundHeader(question) + lines;
  }

  /** The loop of `_summarize_context`: one numbered line per document. */
  method NumberDocuments(listed: seq<string>) returns (lines: string)
    ensures lines == DocLines(listed)
  {
    lines := "";
    var i := 0;
    while i < |listed|
      invariant 0 <= i <= |listed|
      invariant lines == Numbered(DocLine, listed[..i])
    {
      NumberedSnoc(DocLine, listed, i);
      lines := lines + DocLine(i + 1, listed[i]);
      i := i + 1;
    }
    assert listed[..i] == listed;
  }

  /** Numbering one more element appends its line. */
  lemma {:induction false} NumberedSnoc(g: (nat, string) -> string, xs: seq<string>, i: nat)
    requires i < |xs|
    ensures Numbered(g, xs[..i + 1]) == Numbered(g, xs[..i]) + g(i + 1, xs[i])
  {
    assert xs[..i + 1][..i] == xs[..i];
  }

  /** A summary lists the first document found and, when there is one, the
      second, numbered 1 and 2 and in the order found; with no document it
      is the not-found message. */
  lemma {:induction false} SummaryLists(question: string, docs: seq<string>)
    ensures docs == [] ==> SummaryOf(question, docs) == NotFound(question)
    ensures |docs| == 1 ==> SummaryOf(question, docs) == FoundHeader(question) + DocLine(1, docs[0])
    ensures |docs| >= 2 ==> SummaryOf(question, docs)
                            == FoundHeader(question) + (DocLine(1, docs[0]) + DocLine(2, docs[1]))
  {
    if docs != [] {
      NumberedFirstTwo(DocLine, docs);
    }
  }

  lemma {:induction false} NumberedFirstTwo(g: (nat, string) -> string, xs: seq<string>)
    requires xs != []
    ensures |xs| == 1 ==> Numbered(g, Take(xs, 2)) == g(1, xs[0])
    ensures |xs| >= 2 ==> Numbered(g, Take(xs, 2)) == g(1, xs[0]) + g(2, xs[1])
  {
    var one := [xs[0]];
    assert one[..0] == [];
    assert Numbered(g, one) == g(1, xs[0]);
    if |xs| >= 2 {
      var two := [xs[0], xs[1]];
      assert Take(xs, 2) == two;
      assert two[..1] == one;
    } else {
      assert Take(xs, 2) == one;
    }
  }

  /** `SimpleLLM.generate`: a summary when the prompt carries reference
      documents, otherwise the apology. A summary opens with the quoted
      question, so the apology comes exactly when no marker occurs. */
  function SimpleGenerate(prompt: string): (r: string)
    ensures r == Apology <==> !Contains(prompt, SimpleMarker) && !Contains(prompt, DocMarker)
    ensures r == Apology || (r != [] && r[0] == '\'')
  {
    if Contains(prompt, SimpleMarker) || Contains(prompt, DocMarker) then
      var r := Summary(prompt);
      assert r[0] == '\'' != Apology[0];
      r
    else Apology
  }

  /** The content of the last message whose role is "user". */
  function LastUser(messages: seq<Message>): Option<string>
    decreases |messages|
  {
    if messages == [] then None
    else if messages[|messages| - 1].role == "user" then Some(messages[|messages| - 1].content)
    else LastUser(messages[..|messages| - 1])
  }

  /** Message i is a user message and no user message follows it. */
  predicate IsLastUser(messages: seq<Message>, i: int) {
    && 0 <= i < |messages|
    && messages[i].role == "user"
    && forall j :: i < j < |messages| ==> messages[j].role != "user"
  }

  /** `LastUser` finds a user message exactly when there is one, and no
      user message comes after the one it finds. */
  lemma {:induction false} LastUserCorrect(messages: seq<Message>)
    ensures LastUser(messages).None? <==> forall i :: 0 <= i < |messages| ==> messages[i].role != "user"
    ensures LastUser(messages).Some? ==>
      exists i :: IsLastUser(messages, i) && messages[i] == Message("user", LastUser(messages).value)
    decreases |messages|
  {
    if messages != [] {
      var n := |messages| - 1;
      var front := messages[..n];
      if messages[n].role == "user" {
        assert IsLastUser(messages, n);
      } else {
        LastUserCorrect(front);
        assert forall i :: 0 <= i < n ==> front[i] == messages[i];
        if LastUser(front).Some? {
          var i :| IsLastUser(front, i) && front[i] == Message("user", LastUser(front).value);
          assert IsLastUser(messages, i);
        }
      }
    }
  }

  /** `LastUser` gives the content of the last user message. */
  lemma {:induction false} LastUserAt(messages: seq<Message>, i: int)
    requires IsLastUser(messages, i)
    ensures LastUser(messages) == Some(messages[i].content)
    decreases |messages|
  {
    var n := |messages| - 1;
    if i < n {
      var front := messages[..n];
      assert forall j :: 0 <= j < n ==> front[j] == messages[j];
      LastUserAt(front, i);
    }
  }

  /** What `SimpleLLM.chat` answers: the rule-based answer to the last user
      message, and "메시지가 없습니다." exactly when there is none. */
  function SimpleChatAnswer(messages: seq<Message>): (r: string)
    ensures r == NoMessages <==> forall i :: 0 <= i < |messages| ==> messages[i].role != "user"
    ensures forall i :: IsLastUser(messages, i) ==> r == SimpleGenerate(messages[i].content)
  {
    LastUserCorrect(messages);
    LastUsersAgree(messages);
    match LastUser(messages)
    case Some(content) =>
      var r := SimpleGenerate(content);
      assert r != NoMessages by {
        assert NoMessages[0] != '\'' && NoMessages != Apology;
      }
      r
    case None => NoMessages
  }

  lemma {:induction false} LastUsersAgree(messages: seq<Message>)
    ensures forall i :: IsLastUser(messages, i) ==> LastUser(messages) == Some(messages[i].content)
  {
    forall i | IsLastUser(messages, i) ensures LastUser(messages) == Some(messages[i].content) {
      LastUserAt(messages, i);
    }
  }

  /** `SimpleLLM.chat`: scans the messages from the last one back and
      answers the first user message it meets. */
  method SimpleChat(messages: seq<Message>) returns (answer: string)
    ensures answer == SimpleChatAnswer(messages)
  {
    var i := |messages|;
    assert messages[..i] == messages;
    while i > 0
      invariant 0 <= i <= |messages|
      invariant LastUser(messages) == LastUser(messages[..i])
    {
      var msg := messages[i - 1];
      assert messages[..i][..i - 1] == messages[..i - 1];
      if msg.role == "user" {
        return SimpleGenerate(msg.content);
      }
      i := i - 1;
    }
    answer := NoMessages;
  }

  // ---------------------------------------------------------------------
  // The rule-based responder on the prompts of the prompt module
  // ---------------------------------------------------------------------

  lemma {:induction false} QuestionMarkerBorderFree()
    ensures BorderFree(QuestionMarker)
  {
    assert QuestionMarker[1..] != QuestionMarker[..2] by {
      assert QuestionMarker[1..][0] != QuestionMarker[..2][0];
    }
    assert QuestionMarker[2..] != QuestionMarker[..1] by {
      assert QuestionMarker[2..][0] != QuestionMarker[..1][0];
    }
  }

  /** Neither template's closing text contains "질문:". */
  lemma {:induction false} TailsWithoutMarker(t: Template)
    requires t == SimpleTemplate || t == RagTemplate
    ensures !Contains(t.tail, QuestionMarker)
  {
    if t == RagTemplate {
      NotContainsCharOf(t.tail, QuestionMarker, 0);
    } else {
      NotContainsCharOf(t.tail, QuestionMarker, 2);
    }
  }

  /** The question template slot comes right after "질문: ". */
  lemma {:induction false} MidEndsWithMarker(t: Template)
    requires t == SimpleTemplate || t == RagTemplate
    ensures |t.mid| >= 4 && t.mid == t.mid[..|t.mid| - 4] + QuestionMarker + " "
  {
  }

  /** A RAG prompt, cut just before the "질문: " that introduces the question. */
  lemma {:induction false} RagPromptAroundQuestion(question: string, context: string, template: string)
    returns (before: string)
    ensures CreateRagPrompt(question, context, template)
         == before + QuestionMarker + (" " + question + ChooseTemplate(template).tail)
  {
    var t := ChooseTemplate(template);
    MidEndsWithMarker(t);
    var m0 := t.mid[..|t.mid| - 4];
    before := t.head + context + m0;
    calc {
      CreateRagPrompt(question, context, template);
      t.head + context + t.mid + question + t.tail;
      t.head + context + (m0 + QuestionMarker + " ") + question + t.tail;
      before + QuestionMarker + (" " + question + t.tail);
    }
  }

  /** The question read back from text whose last "질문:" is followed by a
      space, a one-line question and a line break. */
  lemma {:induction false} QuestionAfterMarker(before: string, question: string, tail: string)
    requires tail != [] && tail[0] == '\n' && !Contains(tail, QuestionMarker)
    requires forall i :: 0 <= i < |question| ==> question[i] != '\n'
    requires !Contains(question, QuestionMarker)
    ensures ExtractQuestion(before + QuestionMarker + (" " + question + tail)) == Strip(question)
  {
    var pat := QuestionMarker;
    var rest := " " + question + tail;
    var s := before + pat + rest;
    ContainsAt(s, pat, |before|) by {
      assert s[|before|..|before| + |pat|] == pat;
    }
    NoStraddle(question, tail, pat);
    assert !Contains(rest, pat) by {
      assert !IsPrefix(pat, rest) by {
        if |pat| <= |rest| { assert rest[..|pat|][0] == ' ' != pat[0]; }
      }
      assert rest[1..] == question + tail;
    }
    QuestionMarkerBorderFree();
    AfterLastBorderFree(before, pat, rest);
    assert rest[1 + |question|] == '\n';
    BeforeAt(rest, '\n', 1 + |question|);
    assert rest[..1 + |question|] == " " + question;
    StripLeadingSpace(" ", question) by {
      assert IsSpace(' ');
    }
  }

  /** The rule-based responder reads back the question of a RAG prompt:
      for a one-line question that does not itself contain "질문:",
      whatever the context, the extracted question is the stripped question. */
  lemma {:induction false} ExtractQuestionOfRagPrompt(question: string, context: string, template: string)
    requires forall i :: 0 <= i < |question| ==> question[i] != '\n'
    requires !Contains(question, QuestionMarker)
    ensures ExtractQuestion(CreateRagPrompt(question, context, template)) == Strip(question)
  {
    var before := RagPromptAroundQuestion(question, context, template);
    var t := ChooseTemplate(template);
    TailsWithoutMarker(t);
    QuestionAfterMarker(before, question, t.tail);
  }

  /** A prompt from the simple template, or one whose context holds a
      numbered document, carries one of the markers `generate` looks for. */
  lemma {:induction false} RagPromptHasMarker(question: string, context: string, template: string)
    requires template == "simple" || Contains(context, DocMarker)
    ensures var p := CreateRagPrompt(question, context, template);
      Contains(p, SimpleMarker) || Contains(p, DocMarker)
  {
    var t := ChooseTemplate(template);
    var p := CreateRagPrompt(question, context, template);
    if template == "simple" {
      assert p[..|SimpleMarker|] == SimpleMarker;
      ContainsAt(p, SimpleMarker, 0);
    } else {
      FillContains(t, context, question, DocMarker);
    }
  }

  /** What the context contains, the filled template contains. */
  lemma {:induction false} FillContains(t: Template, context: string, question: string, pat: string)
    requires Contains(context, pat)
    ensures Contains(Fill(t, context, question), pat)
  {
    var i := ContainsWitness(context, pat);
    var p := Fill(t, context, question);
    assert p == t.head + context + (t.mid + question + t.tail);
    assert p[|t.head| + i..|t.head| + i + |pat|] == context[i..i + |pat|];
    ContainsAt(p, pat, |t.head| + i);
  }

  /** Such a prompt is summarised rather than refused. */
  lemma {:induction false} SimpleGenerateSummarises(question: string, context: string, template: string)
    requires template == "simple" || Contains(context, DocMarker)
    ensures SimpleGenerate(CreateRagPrompt(question, context, template)) == Summary(CreateRagPrompt(question, context, template))
  {
    RagPromptHasMarker(question, context, template);
  }
}
