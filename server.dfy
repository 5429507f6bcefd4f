/** The chat service: the process-wide conversation `History`, the
    query-rewrite step, context assembly, the `chatting` pipeline and the HTTP
    routing decision. The Gemini, embedding and Pinecone clients are the
    `Services` parameter: each is a function from the request this code builds
    to the outcome the service resolves or rejects with. */
module ChatServer {
  import opened Outcomes
  import opened Strings

  datatype Role = User | Model

  /** One entry of `History`, `{ role, parts: [{ text }] }`; this code always
      writes exactly one part. */
  datatype Turn = Turn(role: Role, text: string)

  /** An embedding; its numbers are opaque to this code. */
  type Vector = seq<real>

  /** `match.metadata`, whose `text` may be absent. */
  datatype Metadata = Metadata(text: Option<string>)

  /** One ranked match from the vector index; `metadata` may be absent. */
  datatype Match = Match(metadata: Option<Metadata>)

  /** `ai.models.generateContent({ model, contents, config: { systemInstruction } })`. */
  datatype GenerateRequest = GenerateRequest(model: string, contents: seq<Turn>, systemInstruction: string)

  /** `embedQuery(text)` on a client configured with `model`. */
  datatype EmbedRequest = EmbedRequest(model: string, text: string)

  /** `pineconeIndex.query({ topK, vector, includeMetadata })`. */
  datatype QueryRequest = QueryRequest(topK: nat, vector: Vector, includeMetadata: bool)

  datatype Services = Services(
    generate: GenerateRequest -> Outcome<string>,
    embed: EmbedRequest -> Outcome<Vector>,
    query: QueryRequest -> Outcome<seq<Match>>)

  /** A request sent to an external service, in the order it is sent. */
  datatype Call =
    | GenerateContent(generateRequest: GenerateRequest)
    | EmbedQuery(embedRequest: EmbedRequest)
    | QueryIndex(queryRequest: QueryRequest)

  const GenerationModel := "gemini-2.0-flash"
  const EmbeddingModel := "text-embedding-004"
  const TopK := 10

  /** Separator between retrieved passages in the context block. */
  const Delimiter := "\n\n---\n\n"

  const RewriteInstruction :=
    "You are a query rewriting expert. Rephrase the last user question into a standalone question **IN ENGLISH**.\n"
    + "          Even if the user asks in Hindi/Tamil/Hinglish, translate the intent to English for database search.\n"
    + "          Only output the rewritten English question."

  /** The persona and policy text that opens every answer instruction. It is a
      fixed constant; its wording is enforced by the language model, not by
      this code, and is not modelled. */
  const PersonaPolicy: string

  const ContextHeader := "Here is your knowledge base:\nContext: "

  /** The template literal closes on the line after the context, indented. */
  const InstructionTail := "\n          "

  /** The copy of the history handed to the rewriter: the whole conversation so
      far, then the pending question as a user turn. */
  function TempHistory(history: seq<Turn>, question: string): (temp: seq<Turn>)
    ensures |temp| == |history| + 1
    ensures temp[..|history|] == history
    ensures temp[|history|] == Turn(User, question)
  {
    history + [Turn(User, question)]
  }

  function RewriteRequest(history: seq<Turn>, question: string): GenerateRequest {
    GenerateRequest(GenerationModel, TempHistory(history, question), RewriteInstruction)
  }

  /** The answer instruction: the fixed persona, then the context block. */
  function AnswerInstruction(context: string): (s: string)
    ensures |s| == |PersonaPolicy| + |ContextHeader| + |context| + |InstructionTail|
    ensures s[..|PersonaPolicy|] == PersonaPolicy
    ensures s[|PersonaPolicy|..|PersonaPolicy| + |ContextHeader|] == ContextHeader
    ensures s[|PersonaPolicy| + |ContextHeader|..|s| - |InstructionTail|] == context
    ensures s[|s| - |InstructionTail|..] == InstructionTail
  {
    var s := PersonaPolicy + ContextHeader + context + InstructionTail;
    assert s == PersonaPolicy + (ContextHeader + (context + InstructionTail));
    s
  }

  function AnswerRequest(contents: seq<Turn>, context: string): GenerateRequest {
    GenerateRequest(GenerationModel, contents, AnswerInstruction(context))
  }

  /** What `.join` makes of `match.metadata.text`: an absent text reads as
      the empty string. */
  function PassageText(m: Match): string {
    if m.metadata.Some? then m.metadata.value.text.GetOr("") else ""
  }

  function Texts(matches: seq<Match>): (texts: seq<string>)
    ensures |texts| == |matches|
    ensures forall i :: 0 <= i < |matches| ==> texts[i] == PassageText(matches[i])
  {
    seq(|matches|, i requires 0 <= i < |matches| => PassageText(matches[i]))
  }

  /** The message of the TypeError thrown when `metadata` is absent; the
      wording is illustrative, since no caller observes it. */
  const MissingMetadata := "Cannot read properties of undefined (reading 'text')"

  /** `searchResults.matches.map(match => match.metadata.text).join(Delimiter)`:
      reading `text` off an absent `metadata` throws. */
  function Assemble(matches: seq<Match>): (r: Outcome<string>)
    ensures r.Ok? <==> forall i :: 0 <= i < |matches| ==> matches[i].metadata.Some?
    ensures matches == [] ==> r == Ok("")
    ensures |matches| == 1 && r.Ok? ==> r.value == PassageText(matches[0])
  {
    if forall i :: 0 <= i < |matches| ==> matches[i].metadata.Some? then
      Ok(Join(Texts(matches), Delimiter))
    else
      Err(MissingMetadata)
  }

  /** The assembled context lays the passages out in ranked order, one
      delimiter between neighbours and none at either end. */
  lemma {:induction false} ContextLayout(matches: seq<Match>, i: nat)
    requires Assemble(matches).Ok?
    requires i < |matches|
    ensures var ctx, o, p := Assemble(matches).value, Offset(Texts(matches), Delimiter, i), PassageText(matches[i]);
      && o + |p| <= |ctx|
      && ctx[o..o + |p|] == p
      && (i + 1 < |matches| ==> o + |p| + |Delimiter| <= |ctx| && ctx[o + |p|..o + |p| + |Delimiter|] == Delimiter)
    ensures |Assemble(matches).value| + |Delimiter| == Offset(Texts(matches), Delimiter, |matches|)
  {
    var texts := Texts(matches);
    assert Assemble(matches).value == Join(texts, Delimiter);
    JoinAt(texts, Delimiter, i);
    JoinLength(texts, Delimiter);
  }

  /** When the index honours `topK`, the context holds at most `TopK`
      passages and so at most `TopK - 1` delimiters. */
  lemma {:induction false} ContextWithinTopK(matches: seq<Match>)
    requires |matches| <= TopK
    requires Assemble(matches).Ok?
    ensures |Assemble(matches).value| <= SumLen(Texts(matches)) + (TopK - 1) * |Delimiter|
  {
    var texts := Texts(matches);
    if matches != [] {
      assert Assemble(matches).value == Join(texts, Delimiter);
      JoinLength(texts, Delimiter);
      OffsetIsSum(texts, Delimiter, |texts|);
      assert texts[..|texts|] == texts;
    }
  }

  /** The effect of one `chatting(question)` call: the new history, what it
      returns or throws, and the requests it sent. */
  datatype ChatStep = ChatStep(history: seq<Turn>, reply: Outcome<string>, calls: seq<Call>)

  /** `chatting`: rewrite, embed, search, assemble the context, push the user
      turn, generate, push the model turn, return the reply. */
  function Chat(history: seq<Turn>, question: string, svc: Services): (s: ChatStep)
    // History is append-only.
    ensures history <= s.history
    // Success adds exactly the question and the reply that is returned.
    ensures s.reply.Ok? ==> s.history == history + [Turn(User, question), Turn(Model, s.reply.value)]
    // Failure leaves history alone or adds just the question.
    ensures s.reply.Err? ==> s.history == history || s.history == history + [Turn(User, question)]
    // The rewrite request comes first and carries the temporary history.
    ensures 1 <= |s.calls| <= 4 && s.calls[0] == GenerateContent(RewriteRequest(history, question))
    // The user turn is pushed exactly when generation is reached, and the
    // generation request sees the history with the original question.
    ensures |s.history| > |history| <==> |s.calls| == 4
    ensures |s.calls| == 4 ==>
      s.calls[3].GenerateContent? && s.calls[3].generateRequest.contents == history + [Turn(User, question)]
  {
    var rewrite := RewriteRequest(history, question);
    match svc.generate(rewrite)
    case Err(e) => ChatStep(history, Err(e), [GenerateContent(rewrite)])
    case Ok(queries) =>
      var embed := EmbedRequest(EmbeddingModel, queries);
      match svc.embed(embed)
      case Err(e) => ChatStep(history, Err(e), [GenerateContent(rewrite), EmbedQuery(embed)])
      case Ok(vector) =>
        var search := QueryRequest(TopK, vector, true);
        var sent := [GenerateContent(rewrite), EmbedQuery(embed), QueryIndex(search)];
        match svc.query(search)
        case Err(e) => ChatStep(history, Err(e), sent)
        case Ok(matches) =>
          match Assemble(matches)
          case Err(e) => ChatStep(history, Err(e), sent)
          case Ok(context) =>
            var asked := history + [Turn(User, question)];
            var answer := AnswerRequest(asked, context);
            match svc.generate(answer)
            case Err(e) => ChatStep(asked, Err(e), sent + [GenerateContent(answer)])
            case Ok(text) => ChatStep(asked + [Turn(Model, text)], Ok(text), sent + [GenerateContent(answer)])
  }

  /** A failed rewrite throws before anything else happens. */
  lemma RewriteFailureKeepsHistory(history: seq<Turn>, question: string, svc: Services)
    requires svc.generate(RewriteRequest(history, question)).Err?
    ensures Chat(history, question, svc).history == history
    ensures Chat(history, question, svc).reply == svc.generate(RewriteRequest(history, question))
    ensures Chat(history, question, svc).calls == [GenerateContent(RewriteRequest(history, question))]
  {
  }

  /** The rewritten query is what is embedded, and a failed embedding throws
      before the history is touched. */
  lemma EmbeddingFollowsRewrite(history: seq<Turn>, question: string, svc: Services)
    requires svc.generate(RewriteRequest(history, question)).Ok?
    ensures var queries := svc.generate(RewriteRequest(history, question)).value;
      var s := Chat(history, question, svc);
      && |s.calls| >= 2
      && s.calls[1] == EmbedQuery(EmbedRequest(EmbeddingModel, queries))
      && (svc.embed(EmbedRequest(EmbeddingModel, queries)).Err? ==> s.history == history && s.reply.Err?)
  {
  }

  /** The embedding is searched for the top `TopK` matches with metadata, and
      a failed search or a match without metadata leaves history alone. */
  lemma SearchFollowsEmbedding(history: seq<Turn>, question: string, svc: Services)
    requires svc.generate(RewriteRequest(history, question)).Ok?
    requires svc.embed(EmbedRequest(EmbeddingModel, svc.generate(RewriteRequest(history, question)).value)).Ok?
    ensures var vector := svc.embed(EmbedRequest(EmbeddingModel, svc.generate(RewriteRequest(history, question)).value)).value;
      var search := QueryRequest(TopK, vector, true);
      var s := Chat(history, question, svc);
      && |s.calls| >= 3
      && s.calls[2] == QueryIndex(search)
      && (svc.query(search).Err? ==> s.history == history && s.reply.Err?)
      && (svc.query(search).Ok? && Assemble(svc.query(search).value).Err? ==> s.history == history && s.reply.Err?)
  {
  }

  /** Once the context is built, the question is pushed and the model is asked
      with the whole history and the context in its instruction; if it fails,
      the question stays as a trailing user turn. */
  lemma GenerationStep(history: seq<Turn>, question: string, svc: Services, vector: Vector, matches: seq<Match>)
    requires svc.generate(RewriteRequest(history, question)).Ok?
    requires svc.embed(EmbedRequest(EmbeddingModel, svc.generate(RewriteRequest(history, question)).value)) == Ok(vector)
    requires svc.query(QueryRequest(TopK, vector, true)) == Ok(matches)
    requires Assemble(matches).Ok?
    ensures var answer := AnswerRequest(history + [Turn(User, question)], Assemble(matches).value);
      var s := Chat(history, question, svc);
      && |s.calls| == 4 && s.calls[3] == GenerateContent(answer)
      && s.reply == svc.generate(answer)
      && (s.reply.Err? ==> s.history == history + [Turn(User, question)])
  {
  }

  /** Zero matches are not an error: the model is still asked, with an empty
      context. */
  lemma EmptyRetrievalStillGenerates(history: seq<Turn>, question: string, svc: Services)
    requires svc.generate(RewriteRequest(history, question)).Ok?
    requires svc.embed(EmbedRequest(EmbeddingModel, svc.generate(RewriteRequest(history, question)).value)).Ok?
    requires svc.query(QueryRequest(TopK,
      svc.embed(EmbedRequest(EmbeddingModel, svc.generate(RewriteRequest(history, question)).value)).value, true)) == Ok([])
    ensures var s := Chat(history, question, svc);
      |s.calls| == 4 && s.calls[3] == GenerateContent(AnswerRequest(history + [Turn(User, question)], ""))
  {
  }

  /** History after the server answers `questions` one request at a time;
      request `k` meets the services in the state `svcs[k]`, so a request that
      failed may succeed when it is asked again. */
  function Session(history: seq<Turn>, questions: seq<string>, svcs: seq<Services>): seq<Turn>
    requires |svcs| == |questions|
    decreases |questions|
  {
    if questions == [] then history
    else Session(Chat(history, questions[0], svcs[0]).history, questions[1..], svcs[1..])
  }

  /** Every request of the session got an answer. */
  predicate AllAnswered(history: seq<Turn>, questions: seq<string>, svcs: seq<Services>)
    requires |svcs| == |questions|
    decreases |questions|
  {
    questions == [] ||
    (Chat(history, questions[0], svcs[0]).reply.Ok? &&
     AllAnswered(Chat(history, questions[0], svcs[0]).history, questions[1..], svcs[1..]))
  }

  /** Across any number of requests, successful or not, earlier turns are
      never removed or edited, and each request adds at most two turns. */
  lemma {:induction false} SessionAppendOnly(history: seq<Turn>, questions: seq<string>, svcs: seq<Services>)
    requires |svcs| == |questions|
    ensures history <= Session(history, questions, svcs)
    ensures |Session(history, questions, svcs)| <= |history| + 2 * |questions|
    decreases |questions|
  {
    if questions != [] {
      SessionAppendOnly(Chat(history, questions[0], svcs[0]).history, questions[1..], svcs[1..]);
    }
  }

  /** A request that fails before anything is pushed and is then asked again
      and answered leaves exactly the retried question and its reply. */
  lemma RetryAfterEarlyFailure(history: seq<Turn>, question: string, first: Services, second: Services)
    requires Chat(history, question, first).reply.Err?
    requires |Chat(history, question, first).calls| < 4
    requires Chat(history, question, second).reply.Ok?
    ensures Session(history, [question, question], [first, second])
         == history + [Turn(User, question), Turn(Model, Chat(history, question, second).reply.value)]
  {
    var qs, svcs := [question, question], [first, second];
    assert qs[1..] == [question] && svcs[1..] == [second];
    assert Chat(history, question, first).history == history;
    var after := Chat(history, question, second).history;
    assert [question][1..] == [] && [second][1..] == [];
    assert Session(history, [question], [second]) == Session(after, [], []) == after;
    assert Session(history, qs, svcs) == Session(history, [question], [second]);
  }

  /** After N answered requests the history has grown by exactly 2N turns:
      each question as a user turn followed by a model turn, in call order. */
  lemma {:induction false} AnsweredSessionTranscript(history: seq<Turn>, questions: seq<string>, svcs: seq<Services>)
    requires |svcs| == |questions|
    requires AllAnswered(history, questions, svcs)
    ensures var h := Session(history, questions, svcs);
      && |h| == |history| + 2 * |questions|
      && history <= h
      && (forall k :: 0 <= k < |questions| ==>
            h[|history| + 2 * k] == Turn(User, questions[k]) && h[|history| + 2 * k + 1].role == Model)
    decreases |questions|
  {
    if questions != [] {
      var step := Chat(history, questions[0], svcs[0]);
      var next, rest := step.history, questions[1..];
      assert next == history + [Turn(User, questions[0]), Turn(Model, step.reply.value)];
      AnsweredSessionTranscript(next, rest, svcs[1..]);
      var h := Session(next, rest, svcs[1..]);
      assert h == Session(history, questions, svcs);
      assert next <= h;
      forall k | 0 <= k < |questions|
        ensures h[|history| + 2 * k] == Turn(User, questions[k]) && h[|history| + 2 * k + 1].role == Model
      {
        if k == 0 {
          assert h[|history|] == next[|history|];
          assert h[|history| + 1] == next[|history| + 1];
        } else {
          assert rest[k - 1] == questions[k];
          assert |next| + 2 * (k - 1) == |history| + 2 * k;
        }
      }
    }
  }

  /** Turns come in pairs, a user turn followed by a model turn. */
  ghost predicate Alternates(h: seq<Turn>)
    decreases |h|
  {
    h == [] || (|h| >= 2 && h[0].role == User && h[1].role == Model && Alternates(h[2..]))
  }

  lemma {:induction false} AlternatesAppendPair(h: seq<Turn>, u: Turn, m: Turn)
    requires Alternates(h) && u.role == User && m.role == Model
    ensures Alternates(h + [u, m])
    decreases |h|
  {
    if h == [] {
      assert (h + [u, m])[2..] == [];
    } else {
      AlternatesAppendPair(h[2..], u, m);
      assert (h + [u, m])[2..] == h[2..] + [u, m];
    }
  }

  /** In an alternating history that extends an alternating prefix, the turn
      right after the first turn past the prefix is a model turn. */
  lemma {:induction false} AlternatesModelAfter(h: seq<Turn>, longer: seq<Turn>)
    requires Alternates(h) && Alternates(longer)
    requires h <= longer && |longer| > |h| + 1
    ensures longer[|h| + 1].role == Model
    decreases |h|
  {
    if h != [] {
      assert h[2..] <= longer[2..];
      AlternatesModelAfter(h[2..], longer[2..]);
    }
  }

  /** Answered requests keep the history alternating. */
  lemma {:induction false} AnsweredSessionAlternates(history: seq<Turn>, questions: seq<string>, svcs: seq<Services>)
    requires |svcs| == |questions|
    requires Alternates(history)
    requires AllAnswered(history, questions, svcs)
    ensures Alternates(Session(history, questions, svcs))
    decreases |questions|
  {
    if questions != [] {
      var step := Chat(history, questions[0], svcs[0]);
      AlternatesAppendPair(history, Turn(User, questions[0]), Turn(Model, step.reply.value));
      AnsweredSessionAlternates(step.history, questions[1..], svcs[1..]);
    }
  }

  /** A failed generation leaves a trailing user turn, and the next request
      that reaches generation puts a second user turn right after it, so the
      history no longer alternates. */
  lemma GenerationFailureBreaksAlternation(history: seq<Turn>, q1: string, q2: string, svc1: Services, svc2: Services)
    requires Alternates(history)
    requires |Chat(history, q1, svc1).calls| == 4 && Chat(history, q1, svc1).reply.Err?
    requires |Chat(Chat(history, q1, svc1).history, q2, svc2).calls| == 4
    ensures var h := Chat(Chat(history, q1, svc1).history, q2, svc2).history;
      h[|history|] == Turn(User, q1) && h[|history| + 1] == Turn(User, q2) && !Alternates(h)
  {
    var h1 := Chat(history, q1, svc1).history;
    var h := Chat(h1, q2, svc2).history;
    assert h1 == history + [Turn(User, q1)];
    assert h[|history| + 1] == Turn(User, q2);
    if Alternates(h) {
      AlternatesModelAfter(history, h);
    }
  }

  /** What the `/ask` handler sends back. */
  datatype Body = Answer(answer: string) | Error(error: string)
  datatype Response = Response(status: nat, body: Body)

  const FailureMessage := "Sorry, something went wrong."
  const NotFoundMessage := "Not found. Try /ask?q=..."

  /** The handler chats only for path `/ask` with a truthy (present,
      non-empty) `q`. */
  predicate IsAsk(pathname: string, q: Option<string>) {
    pathname == "/ask" && q.Some? && q.value != ""
  }

  /** The response to an `/ask` request, from what `chatting` returned or
      threw; the error detail never reaches the client. */
  function Respond(reply: Outcome<string>): (resp: Response)
    ensures resp.status == 200 <==> reply.Ok?
    ensures reply.Ok? ==> resp.body == Answer(reply.value)
    ensures reply.Err? ==> resp == Response(500, Error(FailureMessage))
  {
    match reply
    case Ok(answer) => Response(200, Answer(answer))
    case Err(_) => Response(500, Error(FailureMessage))
  }

  /** The server process: the module-level `History` and, for the proofs, a
      log of every request sent to an external service. */
  class Conversation {
    var history: seq<Turn>
    ghost var calls: seq<Call>

    /** `History` starts empty when the process starts. */
    constructor ()
      ensures history == [] && calls == []
    {
      history := [];
      calls := [];
    }

    /** `transformQuery`: asks the model to rewrite the question against a
        temporary copy of the history; `History` itself cannot change. */
    method TransformQuery(question: string, svc: Services) returns (queries: Outcome<string>)
      modifies this`calls
      ensures queries == svc.generate(RewriteRequest(history, question))
      ensures calls == old(calls) + [GenerateContent(RewriteRequest(history, question))]
    {
      var request := RewriteRequest(history, question);
      calls := calls + [GenerateContent(request)];
      queries := svc.generate(request);
    }

    /** `chatting(question)`, one call at a time. */
    method Chatting(question: string, svc: Services) returns (reply: Outcome<string>)
      modifies this
      ensures var s := Chat(old(history), question, svc);
        history == s.history && reply == s.reply && calls == old(calls) + s.calls
    {
      var queries := TransformQuery(question, svc);
      if queries.Err? {
        return Err(queries.message);
      }
      var embedRequest := EmbedRequest(EmbeddingModel, queries.value);
      calls := calls + [EmbedQuery(embedRequest)];
      var queryVector := svc.embed(embedRequest);
      if queryVector.Err? {
        return Err(queryVector.message);
      }
      var search := QueryRequest(TopK, queryVector.value, true);
      calls := calls + [QueryIndex(search)];
      var searchResults := svc.query(search);
      if searchResults.Err? {
        return Err(searchResults.message);
      }
      var context := Assemble(searchResults.value);
      if context.Err? {
        return Err(context.message);
      }
      history := history + [Turn(User, question)];
      var request := AnswerRequest(history, context.value);
      calls := calls + [GenerateContent(request)];
      var response := svc.generate(request);
      if response.Err? {
        return Err(response.message);
      }
      history := history + [Turn(Model, response.value)];
      reply := Ok(response.value);
    }

    /** The `http.createServer` handler, given the parsed pathname and query
        parameter `q`. */
    method Handle(pathname: string, q: Option<string>, svc: Services) returns (resp: Response)
      modifies this
      ensures resp.status in {200, 404, 500}
      ensures resp.status == 404 <==> !IsAsk(pathname, q)
      // Not found: chatting is never invoked.
      ensures !IsAsk(pathname, q) ==>
        resp == Response(404, Error(NotFoundMessage)) && history == old(history) && calls == old(calls)
      ensures IsAsk(pathname, q) ==>
        var s := Chat(old(history), q.value, svc);
        history == s.history && calls == old(calls) + s.calls && resp == Respond(s.reply)
    {
      if IsAsk(pathname, q) {
        var answer := Chatting(q.value, svc);
        resp := Respond(answer);
      } else {
        resp := Response(404, Error(NotFoundMessage));
      }
    }
  }
}
