# SmartHealthChat retrieval pipeline — Dafny model

This project models the code around the external services of SmartHealthChat, a
retrieval-augmented health chatbot. It has two parts:

- **The chat server** (`chat/server.js`). The process keeps one conversation
  `History`. Each question goes through `chatting`: Gemini is asked to rewrite the
  question as a standalone English question against a temporary copy of the
  history, its reply is embedded as returned, the Pinecone index is searched for the top 10 matches, the match
  texts are joined into a context block, the user turn is pushed, Gemini
  generates the answer, and the model turn is pushed. The HTTP handler answers
  `/ask?q=…` with 200 or 500 and everything else with 404.
- **The indexer** (`chat/index.js`). It lists `./who`, keeps the names ending in
  `.pdf`, and loads each file in listing order. A file that fails to load is
  logged and skipped. The text splitter is configured with `chunkSize: 1000` and
  `chunkOverlap: 200`.

Every external service is a parameter: `generateContent`, `embedQuery`,
`index.query` and `PDFLoader.load`. Each is a function from the request the code
builds to an `Outcome`, which is `Ok(value)` or `Err(message)` (the promise
rejects). The directory listing is an `Outcome` too. So the contracts can say
which request went to which service, and what the history looks like for every
combination of successes and failures.

Files:

- `outcomes.dfy`: `Outcome` and `Option`.
- `strings.dfy`: JavaScript's `Array.prototype.join` and
  `String.prototype.endsWith`, with their layout lemmas.
- `server.dfy`: the chat server. `Chat` is the specification of one `chatting`
  call. The class `Conversation` holds `history`, plus a ghost log `calls` of the
  requests sent out. `Chatting` and `Handle` are proved against `Chat`.
  `TransformQuery` is proved against `RewriteRequest` and the generation
  service, and its frame (`this\`calls`) keeps `history` fixed.
- `indexer.dfy`: filtering the listing, the loading loop (`LoadAll`) proved
  against the fold `LoadedDocs`, and the splitter settings.

## Behaviour worth knowing

- The rewrite instruction asks the model for one standalone question in English,
  whatever the user's language (`server.js:25-27`). Its reply is embedded as
  returned; nothing checks its language.
- The answer instruction does not stop at the context. The template literal
  goes on with a newline and ten spaces (`server.js:119-120`), and
  `InstructionTail` models that.
- An empty `q` (`/ask?q=`) is falsy, so it also gets 404 (`server.js:140`).
- A failed generation leaves the user turn in the history (`server.js:59-64`).
  The history then no longer alternates between user and model, and
  `GenerationFailureBreaksAlternation` proves that.

## Model

| member | source | states |
|---|---|---|
| `Strings.JoinLength` | chat/server.js:54-56 | a non-empty join ends exactly where its last part ends: no separator follows the last part |
| `Strings.OffsetIsSum` | chat/server.js:54-56 | part i starts after all earlier parts and exactly i separators |
| `Strings.JoinAt` | chat/server.js:54-56 | part i is found at its offset (the parts before it plus i separators), and exactly one separator follows it unless it is last |
| `Strings.JoinSplit` | chat/server.js:54-56 | a join splits at any inner boundary into the join of the first i parts, one separator, and the join of the rest |
| `Strings.EndsWithIffConcat` | chat/index.js:25 | `endsWith(suffix)` holds exactly when the name is some string followed by the suffix |
| `Strings.Join` | chat/server.js:56 | `Array.prototype.join`: no parts give the empty string, one part gives itself, more parts give the first, the separator, and the join of the rest |
| `Strings.EndsWith` | chat/index.js:25 | `String.prototype.endsWith`: the suffix fits and is the last characters of the name |
| `ChatServer.RewriteRequest` | chat/server.js:21-29 | the rewrite call uses gemini-2.0-flash, the temporary history and the fixed rewrite instruction |
| `ChatServer.AnswerRequest` | chat/server.js:64-121 | the answer call uses gemini-2.0-flash, the history with the question pushed, and the instruction built from the context |
| `ChatServer.PassageText` | chat/server.js:55 | a match contributes its `metadata.text`, or the empty string when that text is absent |
| `ChatServer.IsAsk` | chat/server.js:140 | the request is an ask exactly when the pathname is `/ask` and `q` is present and non-empty |
| `ChatServer.TempHistory` | chat/server.js:19 | the rewrite history is the whole current history followed by exactly one user turn carrying the question |
| `ChatServer.AnswerInstruction` | chat/server.js:69-120 | the answer instruction is the fixed persona text, then "Here is your knowledge base:\nContext: ", then the context unchanged, then the closing newline and indentation |
| `ChatServer.Texts` | chat/server.js:55 | one passage text per match, in ranked order; a missing `metadata.text` reads as the empty string |
| `ChatServer.Assemble` | chat/server.js:54-56 | context assembly succeeds exactly when every match has metadata; zero matches give the empty context, not an error; one match gives its text alone |
| `ChatServer.ContextLayout` | chat/server.js:54-56 | the context holds each match's text at its offset in ranked order, with the delimiter between neighbours and none after the last, so n matches give n-1 delimiters |
| `ChatServer.ContextWithinTopK` | chat/server.js:48-56 | when the index returns at most topK = 10 matches, the context is no longer than their texts plus 9 delimiters |
| `ChatServer.Chat` | chat/server.js:35-130 | history is append-only; success appends exactly user(question) then model(reply), and reply is the returned string; failure leaves history as it was or adds only user(question); the first request is the rewrite over the temporary history; the user turn is pushed exactly when generation is reached, and generation sees the history plus the original question |
| `ChatServer.RewriteFailureKeepsHistory` | chat/server.js:17-36 | a failed rewrite is rethrown, history is unchanged, and nothing but the rewrite was requested |
| `ChatServer.EmbeddingFollowsRewrite` | chat/server.js:36-43 | the rewritten query, not the question, is what gets embedded; a failed embedding leaves history unchanged and throws |
| `ChatServer.SearchFollowsEmbedding` | chat/server.js:43-56 | the index is searched with topK 10, the query vector and includeMetadata; a failed search or a match without metadata leaves history unchanged and throws |
| `ChatServer.GenerationStep` | chat/server.js:59-129 | once the context is built, generation gets history + user(question) with the context in its instruction, and its outcome is what chatting returns; if it fails, exactly one trailing user turn remains |
| `ChatServer.EmptyRetrievalStillGenerates` | chat/server.js:54-66 | zero matches still lead to a generation call, with an empty context |
| `ChatServer.SessionAppendOnly` | chat/server.js:14 | over any sequence of requests, each meeting the services in its own state, successful or not, earlier turns are never removed or edited, and each request adds at most two turns |
| `ChatServer.RetryAfterEarlyFailure` | chat/server.js:36-62 | a request that fails before the push and is then retried and answered leaves exactly the retried question and its reply |
| `ChatServer.AnsweredSessionTranscript` | chat/server.js:59-62 | after N answered requests, history has grown by exactly 2N turns: each question as a user turn followed by a model turn, in call order |
| `ChatServer.AnsweredSessionAlternates` | chat/server.js:124-127 | starting from an alternating history, answered requests keep it alternating |
| `ChatServer.GenerationFailureBreaksAlternation` | chat/server.js:59-64 | after a failed generation, the next request that reaches generation leaves two consecutive user turns, so the history stops alternating |
| `ChatServer.Respond` | chat/server.js:144-152 | status 200 with the answer exactly when chatting returned; otherwise 500 with the fixed "Sorry, something went wrong." and no error detail |
| `ChatServer.Conversation.constructor` | chat/server.js:14 | History starts empty |
| `ChatServer.Conversation.TransformQuery` | chat/server.js:17-32 | sends one rewrite request over the temporary history and returns its outcome; its frame excludes `history`, so the real history cannot change |
| `ChatServer.Conversation.Chatting` | chat/server.js:35-130 | the new history, the returned outcome and the requests sent are exactly those of `Chat` on the old history |
| `ChatServer.Conversation.Handle` | chat/server.js:134-157 | a path other than /ask, or a missing or empty q, gives 404 "Not found. Try /ask?q=..." and neither calls a service nor touches history; otherwise it runs chatting and responds as `Respond`; the status is always 200, 404 or 500 |
| `Indexer.SplitterIsValid` | chat/index.js:55-58 | the configured splitter overlap (200) is below the configured chunk size (1000) |
| `Indexer.PdfNames` | chat/index.js:25 | a name is kept exactly when it is listed and ends in `.pdf`; the filter never adds names |
| `Indexer.PdfNamesAppend` | chat/index.js:25 | filtering distributes over concatenation, so listing order is kept |
| `Indexer.PdfNamesSingle` | chat/index.js:25 | a single entry is kept exactly when it ends in `.pdf` |
| `Indexer.FilePath` | chat/index.js:34 | `path.join('./who', file)` for a directory entry is `who/` followed by the name |
| `Indexer.LoadedDocs` | chat/index.js:28-45 | rawDocs after the files are loaded: the docs so far, followed by those of the last file if its load succeeded |
| `Indexer.FileLog` | chat/index.js:40-43 | the console line for one file: loaded, or skipped with the error message |
| `Indexer.LoadedDocsAppend` | chat/index.js:33-45 | the docs of a list of files are the docs of its first part followed by those of the rest |
| `Indexer.FailedFileSkipped` | chat/index.js:37-44 | a failing file contributes no docs and the files after it are still loaded |
| `Indexer.LoadedFileKept` | chat/index.js:37-40 | a file that loads contributes exactly its docs, between those of the files before and after it |
| `Indexer.AllFailedNoDocs` | chat/index.js:28-45 | with no files, or when every load fails, rawDocs is empty |
| `Indexer.DocsComeFromLoadedFiles` | chat/index.js:33-40 | every doc in rawDocs belongs to the result of some file whose load succeeded |
| `Indexer.LoadAll` | chat/index.js:28-45 | the loop returns normally; rawDocs is the in-order concatenation of the successful loads; the log has one line per file, in order, saying loaded or skipped with the error |
| `Indexer.IndexDocument` | chat/index.js:18-59 | a failed directory read escapes; otherwise only `.pdf` entries are loaded, in listing order, rawDocs is their fold, the splitter is 1000/200, and the log is the start line, one line per file, and the end line |

## Left out

- The wording of the persona and policy prompt (`server.js:69-117`) is the abstract constant `PersonaPolicy`. Language mirroring, refusals, the emergency rule and the disclaimer are enforced by the language model, not by this code.
- Services are modelled as functions of their request. A real service may answer the same request differently on two calls. Within one `chatting` call each request is sent once, so this changes nothing there. Across requests, `Session` and `AllAnswered` give each request its own `Services`, so a failed request may succeed when retried.
- The scores and ranking of matches belong to the vector store and are not modelled. A match carries only its optional metadata.
- A `response.text` that is `undefined` (for example a blocked generation) is not modelled. Replies are strings.
- Values of `metadata.text` that are not strings are not modelled. They would be converted with `toString` by `join`.
- URL parsing is left out, and so are repeated `q` parameters (which Node turns into an array), headers, CORS, JSON serialisation of the body and console logging in the server.
- Concurrent requests interleaving on the shared `History` are left out. The model runs one request at a time.
- Building the clients (`new GoogleGenerativeAIEmbeddings`, `new Pinecone()`, `pinecone.Index`) and reading the environment are left out.
- `RecursiveCharacterTextSplitter.splitDocuments`, the embedding of chunks and `PineconeStore.fromDocuments` with `maxConcurrency: 5` (`index.js:59-83`) are library calls or concurrency. Only the splitter settings are modelled.
- Indexer.LoadAll: every rejection of `load()` is assumed to be an `Error` with a `message`. A rejection with `null` or `undefined` would make the catch block throw on `error.message` (`index.js:43`) and reject `indexDocument`. `path.join` and `new PDFLoader` (`index.js:34-35`) run outside the `try` and are assumed not to throw.
- `PDFLoader` text extraction, `dotenv` and the console lines from chunking onwards (`index.js:53-83`) are left out.
- `Indexer.FilePath` writes `path.join('./who', file)` as `"who/" + file`. That holds for directory entries, which contain no separator and are never `.` or `..`. General path normalisation is not modelled.
- `chat/app.py` (Streamlit UI, speech input, audio output and the HTTP client) is not part of this model.
