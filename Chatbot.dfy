/**
 * The chatbot: retrieval, prompting and a language model wired together,
 * with a conversation history that keeps the ten most recent messages.
 */
module Chatbot {
  import opened Common
  import opened Text
  import opened SearchModelSetup
  import opened Retrieval
  import opened Prompt
  import opened LlmModel

  /** How many history messages are kept after an exchange. */
  const MaxHistory := 10

  /** What the chatbot uses of a language model: its answer to a single
      prompt and its answer to a chat. */
  datatype Llm = Llm(generate: string -> string, chat: seq<Message> -> string)

  /** The rule-based model. */
  function SimpleLlm(): Llm {
    Llm(SimpleGenerate, SimpleChatAnswer)
  }

  /** `get_llm(provider)`: the rule-based model, or one of the remote
      models, whose behaviour is the parameter `remote`. */
  function ChooseLlm(provider: string, remote: Provider -> Llm): Llm {
    var p := GetLlm(provider);
    if p == Simple then SimpleLlm() else remote(p)
  }

  // ---------------------------------------------------------------------
  // The history
  // ---------------------------------------------------------------------

  /** A history as `ask` leaves it: at most ten messages, alternately the
      user's question and the assistant's answer, starting with a question. */
  predicate WellFormedHistory(h: seq<Message>) {
    && |h| <= MaxHistory
    && |h| % 2 == 0
    && forall i :: 0 <= i < |h| ==> h[i].role == (if i % 2 == 0 then "user" else "assistant")
  }

  /** The history after one exchange: the question and the model's raw
      answer appended, then only the last ten messages kept. */
  function Recorded(h: seq<Message>, question: string, answer: string): (r: seq<Message>)
    ensures |r| == Min(MaxHistory, |h| + 2)
    ensures r[|r| - 2..] == [Message("user", question), Message("assistant", answer)]
  {
    var full := h + [Message("user", question), Message("assistant", answer)];
    var r := Last(full, MaxHistory);
    assert r[|r| - 2..] == full[|full| - 2..];
    r
  }

  /** An exchange keeps the history well formed; it ends with the question
      and the answer, and what precedes them is the most recent part of the
      old history, in order. */
  lemma {:induction false} RecordedWellFormed(h: seq<Message>, question: string, answer: string)
    requires WellFormedHistory(h)
    ensures var r := Recorded(h, question, answer);
      && WellFormedHistory(r)
      && r[|r| - 2..] == [Message("user", question), Message("assistant", answer)]
      && r[..|r| - 2] == h[|h| + 2 - |r|..]
  {
    var full := h + [Message("user", question), Message("assistant", answer)];
    var r := Recorded(h, question, answer);
    var drop := |full| - |r|;
    assert drop == 0 || drop == 2;
    forall i | 0 <= i < |r|
      ensures r[i].role == (if i % 2 == 0 then "user" else "assistant")
    {
      assert r[i] == full[drop + i];
      if drop + i < |h| {
        assert full[drop + i] == h[drop + i];
      }
    }
    assert r[|r| - 2..] == full[|full| - 2..];
    assert r[..|r| - 2] == full[drop..|h|];
  }

  // ---------------------------------------------------------------------
  // Answers
  // ---------------------------------------------------------------------

  /** The model's raw answer in `ask`: from the chat messages when the
      history is used and is not empty, otherwise from the single RAG
      prompt. */
  function RawAnswer(llm: Llm, history: seq<Message>, question: string, context: string, useHistory: bool): string {
    if useHistory && history != [] then llm.chat(ChatMessages(question, context, history))
    else llm.generate(CreateRagPrompt(question, context, "default"))
  }

  /** The rule-based model answers the chat from its last message, which is
      the RAG prompt: the history makes no difference to it. */
  lemma {:induction false} SimpleLlmIgnoresHistory(history: seq<Message>, question: string, context: string, useHistory: bool)
    ensures RawAnswer(SimpleLlm(), history, question, context, useHistory)
         == SimpleGenerate(CreateRagPrompt(question, context, "default"))
  {
    var ms := ChatMessages(question, context, history);
    assert ms[|ms| - 1] == Message("user", CreateRagPrompt(question, context, "default"));
  }

  /** The history reaches the model only through `use_history`: without it
      any two histories give the same answer, and an empty history used
      gives that answer too. */
  lemma {:induction false} HistoryOnlyWhenUsed(llm: Llm, h1: seq<Message>, h2: seq<Message>, question: string, context: string)
    ensures RawAnswer(llm, h1, question, context, false) == RawAnswer(llm, h2, question, context, false)
    ensures RawAnswer(llm, [], question, context, true) == RawAnswer(llm, h1, question, context, false)
  {
  }

  /** The first context entry opens with "[문서 1]". */
  lemma {:induction false} FirstEntryOpens(r: SearchResult)
    ensures var e := ContextEntry(1, r);
      |e| >= 6 && e[..4] == DocOpen && e[4] == '1' && e[5] == ']'
  {
    assert NatToString(1) == "1";
    var e := ContextEntry(1, r);
    forall k | 0 <= k < 6
      ensures e[k] == "[문서 1]"[k]
    {
    }
    assert e[..4] == "[문서 1]"[..4];
  }

  /** The context of some results opens with "[문서 1]". */
  lemma {:induction false} ContextOpensWithDocument(rs: seq<SearchResult>)
    requires rs != []
    ensures var c := Context(rs);
      |c| >= 6 && c[..4] == DocOpen && c[4] == '1' && c[5] == ']'
  {
    var parts := ContextEntries(rs);
    FirstEntryOpens(rs[0]);
    JoinStartsWith(parts, ContextSeparator);
    var c := Context(rs);
    var e := parts[0];
    assert c[..|e|] == e;
    assert c[..4] == e[..4] && c[4] == e[4] && c[5] == e[5];
  }

  /** Text opening with "[문서 ", a digit and ']' is a match of the document
      pattern. */
  lemma {:induction false} DocMatchOpens(s: string)
    requires |s| >= 6 && s[..4] == DocOpen && IsDigit(s[4]) && s[5] == ']'
    ensures DocMatch(s).Some?
  {
    assert s[4..][0] == s[4];
    assert s[4..][1..][0] == s[5];
    assert Span(s[4..][1..], IsDigit) == 0;
  }

  /** A prompt with the opening of a document entry at `h` has documents to
      list. */
  lemma {:induction false} DocsAt(p: string, h: nat)
    requires h + 6 <= |p| && p[h..h + 4] == DocOpen && IsDigit(p[h + 4]) && p[h + 5] == ']'
    ensures Contains(p, DocMarker) && Docs(p) != []
  {
    assert p[h..h + 3] == p[h..h + 4][..3];
    ContainsAt(p, DocMarker, h);
    assert p[h..][..4] == p[h..h + 4];
    DocMatchOpens(p[h..]);
    FindDocsFinds(p, h);
  }

  /** A RAG prompt whose context opens with a document entry has
      documents to list. */
  lemma {:induction false} OpeningContextHasDocs(question: string, c: string)
    requires |c| >= 6 && c[..4] == DocOpen && IsDigit(c[4]) && c[5] == ']'
    ensures Contains(c, DocMarker)
    ensures Docs(CreateRagPrompt(question, c, "default")) != []
  {
    FilledContextHasDocs(ChooseTemplate("default"), question, c);
    assert c[..3] == c[..4][..3];
    ContainsAt(c, DocMarker, 0);
  }

  lemma {:induction false} FilledContextHasDocs(t: Template, question: string, c: string)
    requires |c| >= 6 && c[..4] == DocOpen && IsDigit(c[4]) && c[5] == ']'
    ensures Docs(Fill(t, c, question)) != []
  {
    var p := Fill(t, c, question);
    var h := |t.head|;
    FillRecovers(t, c, question);
    var inner := p[h..h + |c|];
    assert inner == c;
    assert p[h..h + 4] == inner[..4];
    assert p[h + 4] == inner[4] && p[h + 5] == inner[5];
    DocsAt(p, h);
  }

  /** The prompt built from a non-empty context has a document to list. */
  lemma {:induction false} RagPromptHasDocs(question: string, rs: seq<SearchResult>)
    requires rs != []
    ensures Contains(Context(rs), DocMarker)
    ensures Docs(CreateRagPrompt(question, Context(rs), "default")) != []
  {
    ContextOpensWithDocument(rs);
    OpeningContextHasDocs(question, Context(rs));
  }

  /** With the rule-based model and at least one result, `ask` answers a
      one-line question, with or without history, with the summary that
      quotes the question and lists the first documents. */
  lemma {:induction false} SimpleChatbotSummarises(history: seq<Message>, question: string,
                                                   rs: seq<SearchResult>, useHistory: bool)
    requires rs != []
    requires forall i :: 0 <= i < |question| ==> question[i] != '\n'
    requires !Contains(question, QuestionMarker)
    ensures var p := CreateRagPrompt(question, Context(rs), "default");
      && Docs(p) != []
      && RawAnswer(SimpleLlm(), history, question, Context(rs), useHistory)
         == FoundHeader(Strip(question)) + DocLines(Take(Docs(p), 2))
  {
    var c := Context(rs);
    SimpleLlmIgnoresHistory(history, question, c, useHistory);
    RagPromptHasDocs(question, rs);
    SimpleGenerateSummarises(question, c, "default");
    ExtractQuestionOfRagPrompt(question, c, "default");
  }

  // ---------------------------------------------------------------------
  // `SocialCultureChatbot`
  // ---------------------------------------------------------------------

  class SocialCultureChatbot {
    const retriever: Retriever
    const topK: nat
    const llm: Llm
    var chatHistory: seq<Message>

    ghost predicate Valid()
      reads this
    {
      WellFormedHistory(chatHistory)
    }

    /** `SocialCultureChatbot(llm_provider, collection_name, top_k)`: the
        retriever for the collection is the parameter `retriever`. */
    constructor(provider: string, retriever: Retriever, topK: nat, remote: Provider -> Llm)
      ensures Valid()
      ensures this.retriever == retriever && this.topK == topK
      ensures llm == ChooseLlm(provider, remote)
      ensures chatHistory == []
    {
      this.retriever := retriever;
      this.topK := topK;
      llm := ChooseLlm(provider, remote);
      chatHistory := [];
    }

    /** `ask`: retrieve `top_k` results and their context, ask the model,
        record the question and the raw answer, and return the answer with
        its sources when `show_sources` is set. A failed search raises
        before the model is asked, and the history stays as it was. */
    method Ask(question: string, useHistory: bool, showSources: bool) returns (answer: Result<string, SearchError>)
      requires Valid()
      modifies this
      ensures Valid()
      ensures var spec := RetrieveSpec(retriever.ModelState(), retriever.similarity, question, topK, false);
        spec.Err? ==> answer == Err(spec.error) && chatHistory == old(chatHistory)
      ensures var spec := RetrieveSpec(retriever.ModelState(), retriever.similarity, question, topK, false);
        spec.Ok? ==>
          var raw := RawAnswer(llm, old(chatHistory), question, Context(spec.value), useHistory);
          && chatHistory == Recorded(old(chatHistory), question, raw)
          && answer == Ok(if showSources then FormattedAnswer(raw, spec.value) else raw)
    {
      var retrieved := retriever.RetrieveWithContext(question, topK);
      if retrieved.Err? {
        return Err(retrieved.error);
      }
      var text := Respond(question, retrieved.value.results, retrieved.value.context, useHistory, showSources);
      answer := Ok(text);
    }

    /** The part of `ask` after a successful retrieval: ask the model,
        format the answer, record the exchange. */
    method Respond(question: string, results: seq<SearchResult>, context: string, useHistory: bool, showSources: bool)
      returns (answer: string)
      requires Valid()
      modifies this
      ensures Valid()
      ensures var raw := RawAnswer(llm, old(chatHistory), question, context, useHistory);
        && chatHistory == Recorded(old(chatHistory), question, raw)
        && answer == (if showSources then FormattedAnswer(raw, results) else raw)
    {
      var raw := Consult(question, context, useHistory);
      if showSources {
        answer := FormatAnswer(raw, results);
      } else {
        answer := raw;
      }
      Record(question, raw);
    }

    /** The model call in `ask`: the chat path only when the history is
        used and is not empty. */
    method Consult(question: string, context: string, useHistory: bool) returns (raw: string)
      ensures raw == RawAnswer(llm, chatHistory, question, context, useHistory)
    {
      if useHistory && chatHistory != [] {
        var messages := CreateChatMessages(question, context, chatHistory);
        raw := llm.chat(messages);
      } else {
        var prompt := CreateRagPrompt(question, context, "default");
        raw := llm.generate(prompt);
      }
    }

    /** The history update in `ask`: append the exchange, then keep the
        last ten messages. */
    method Record(question: string, raw: string)
      requires Valid()
      modifies this
      ensures Valid()
      ensures chatHistory == Recorded(old(chatHistory), question, raw)
    {
      RecordedWellFormed(chatHistory, question, raw);
      chatHistory := chatHistory + [Message("user", question), Message("assistant", raw)];
      if |chatHistory| > MaxHistory {
        chatHistory := chatHistory[|chatHistory| - MaxHistory..];
      }
    }

    /** `search_only`: a search without reranking, for `top_k` or, when
        it is missing or 0, for the chatbot's own `top_k`. */
    method SearchOnly(query: string, topK: Option<nat>) returns (results: Result<seq<SearchResult>, SearchError>)
      ensures var k := if topK == None || topK == Some(0) then this.topK else topK.value;
        results == RetrieveSpec(retriever.ModelState(), retriever.similarity, query, k, false)
    {
      var k := if topK == None || topK == Some(0) then this.topK else topK.value;
      results := retriever.Retrieve(query, k, false);
    }

    /** `clear_history`. */
    method ClearHistory()
      modifies this
      ensures Valid()
      ensures chatHistory == []
    {
      chatHistory := [];
    }

    /** `get_history`. */
    method GetHistory() returns (history: seq<Message>)
      ensures history == chatHistory
    {
      history := chatHistory;
    }
  }
}
