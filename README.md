# Slack MCP server: tool gating, error recovery and saved items

This project models, in Dafny, two parts of the Slack MCP server. It proves properties of that
model.

**Server set-up and error handling** (`pkg/server/server.go`):
- The catalogue of tool names.
- The validation of a user-supplied allow-list of tool names.
- `shouldAddTool`: the per-tool decision between the allow-list and a tool's opt-in
  environment variable.
- The set of tools `NewMCPServer` registers for a given allow-list, environment and token kind.
- The middleware that turns handler errors into error results. When the error is a Slack
  authentication error, the result gets an expired-session hint.

**The saved-items tools** (`pkg/handler/saved.go`):
- `saved_list` pages through all saved items by cursor. It builds one row per item with:
  - the cached channel name;
  - the two dates;
  - the author and cleaned text of the message;
  - a permalink.
- `saved_complete` checks its two parameters, then asks the backend to complete the item.

Modules:
- `Wrappers` holds `Option` and `Result`.
- `Strings` holds the string helpers the Go code takes from its standard library:
  - `strings.Contains`;
  - `strings.TrimRight(s, "/")`;
  - `strings.ReplaceAll` for the two fixed replacements used;
  - `strings.Join`.
- `LinkMarkup` covers the `slackLinkRe` rewrite.
- `Server` covers `server.go`.
- `Saved` covers `saved.go`.

The backend, the caches, the environment and the clock formatting are inputs of the model:
- Environment variables are a `map<string, string>`. A missing key reads as "", as with
  `os.Getenv`.
- The answers to successive saved-list calls are a sequence indexed by call number.
- The history lookup and the completion call are function parameters keyed by
  (channel, ts).
- The RFC 3339 formatter is a function parameter.
- The two caches are `Option`s, because the provider may return nil.

Imperative code becomes methods proved against specification functions:
- loops: `ValidateEnabledTools` and its lookup table, `isSlackAuthError`'s early-return scan,
  and the paging loop and the row loop of `SavedListHandler`;
- straight-line steps: the guarded `AddTool` sequence of `NewMCPServer`.

## Model

| member | source | states |
|---|---|---|
| Strings.TrimTrailingSlashes | pkg/handler/saved.go:71 | `strings.TrimRight(s, "/")`: the result is a prefix of the input and does not end in `/`, and everything removed is `/` |
| Strings.DeleteDots | pkg/handler/saved.go:103 | `strings.ReplaceAll(ts, ".", "")`: the result has no `.` and is shorter than the input by exactly its number of dots, so every dot is deleted rather than replaced |
| Strings.DeleteDotsAppend | pkg/handler/saved.go:103 | deleting the dots of a concatenation deletes them part by part, so every other character keeps its order |
| Strings.DeleteDotsNoDot | pkg/handler/saved.go:103 | a string without dots is left unchanged |
| Strings.DeleteDotsAround | pkg/handler/saved.go:103 | a `seconds.micros` timestamp loses exactly its one dot: `DeleteDots(a + "." + b) == a + b` for dot-free `a` and `b` |
| Strings.NewlinesToSpaces | pkg/handler/saved.go:181 | `strings.ReplaceAll(text, "\n", " ")`: same length, no newline left, every other character unchanged and every newline now a space |
| Strings.Contains | pkg/server/server.go:576 | `strings.Contains`: an occurrence needs the searched text to be at least as long as the substring, and the empty substring always occurs |
| Strings.Join | pkg/server/server.go:77-78 | `strings.Join`: no parts give "", one part gives that part, and more parts start with the first part followed by the separator |
| Strings.JoinContains | pkg/server/server.go:76-78 | every part of a `strings.Join` result occurs in it |
| LinkMarkup.StripLinks | pkg/handler/saved.go:17-18 | `slackLinkRe.ReplaceAllString(text, "$1")` under leftmost-first matching; the result is never longer than the input |
| LinkMarkup.StripLinksNoMarkup | pkg/handler/saved.go:180 | text without any `<` is left unchanged by the rewrite |
| LinkMarkup.StripLinksPlainPrefix | pkg/handler/saved.go:180 | text before the first `<` passes through unchanged and the rewrite continues on the rest |
| LinkMarkup.StripLinksLabelled | pkg/handler/saved.go:17-18 | `<url\|label>` becomes `url`, and the rest of the text is rewritten independently |
| LinkMarkup.StripLinksBare | pkg/handler/saved.go:17-18 | `<url>` becomes `url`, and the rest of the text is rewritten independently |
| LinkMarkup.StripLinksNotALink | pkg/handler/saved.go:17-18 | a `<` followed by `\|`, by `>` or by no `>` at all starts no match and is kept |
| Server.CatalogueShape | pkg/server/server.go:27-61 | the catalogue has fifteen distinct names, and a tool's name is in it exactly when the tool is not `users_search` |
| Server.InvalidTools | pkg/server/server.go:69-74 | the unknown entries, in input order: each reported entry occurs in the input and is not in the catalogue, and there are never more of them than inputs |
| Server.InvalidToolsMessage | pkg/server/server.go:76-78 | the error text starts with `invalid tool name(s): `, ends with the comma-separated catalogue, and is exactly the fixed text plus the two joined lists long |
| Server.LookupTable | pkg/server/server.go:64-67 | the map built from the catalogue has exactly the catalogue's names as keys, each mapped to true |
| Server.CollectInvalid | pkg/server/server.go:69-74 | the loop over the allow-list, given a table that marks exactly the catalogue, collects exactly the unknown entries, in input order |
| Server.ValidateAgainst | pkg/server/server.go:63-81 | against any catalogue: no error exactly when every entry is in it; otherwise the error text is built from the unknown entries and the catalogue |
| Server.ValidateEnabledTools | pkg/server/server.go:63-81 | no error exactly when every entry is a catalogue name; otherwise the error is the `invalid tool name(s): … Valid tools are: …` text built from the unknown entries, in input order |
| Server.InvalidToolsAppend | pkg/server/server.go:70-74 | checking a concatenation reports the unknown names of each part, in order |
| Server.InvalidToolsEmpty | pkg/server/server.go:75-80 | nothing is reported exactly when every entry is known (both directions), and an empty allow-list is always valid |
| Server.InvalidToolsCount | pkg/server/server.go:70-74 | each unknown name is reported exactly as often as it occurs, and a catalogue name never is |
| Server.InvalidToolsMessageNamesEach | pkg/server/server.go:75-78 | the error text contains every unknown entry |
| Server.Getenv | pkg/server/server.go:96 | `os.Getenv`: the variable's value when it is set, "" when it is not |
| Server.ShouldAddTool | pkg/server/server.go:83-100 | a tool is never added past a non-empty allow-list that omits it; a listed tool is always added; with no allow-list, a tool without opt-in variable is always added |
| Server.ShouldAddToolCases | pkg/server/server.go:83-100 | without an opt-in variable, a tool is added iff the allow-list is empty or names it; with one, an empty allow-list defers to the variable being non-empty, and a non-empty list decides alone |
| Server.AllowListOverridesEnv | pkg/server/server.go:91-99 | with a non-empty allow-list, neither the opt-in variable nor the environment changes the decision |
| Server.Registered | pkg/server/server.go:280-297 | `users_search` is always registered, and message search never is for a bot token |
| Server.AddToolIf | pkg/server/server.go:115-116 | one guarded `AddTool` step adds exactly the given tool when the guard holds, and nothing otherwise |
| Server.RegisterTools | pkg/server/server.go:115-447 | the registration sequence of `NewMCPServer` registers exactly the tools of the specification `Registered` |
| Server.RegisterConversationsTools | pkg/server/server.go:115-235 | history, replies, posting, the two reaction tools and attachments are each registered iff `shouldAddTool` admits them under their own opt-in variable |
| Server.RegisterSearchTools | pkg/server/server.go:280-297 | message search is registered iff the token is not a bot token and `shouldAddTool` admits it; `users_search` is registered unconditionally |
| Server.RegisterChannelsTools | pkg/server/server.go:302-322 | `channels_list` is registered iff `shouldAddTool` admits it |
| Server.RegisterUsergroupsTools | pkg/server/server.go:325-418 | each of the five user-group tools is registered iff `shouldAddTool` admits it |
| Server.RegisterSavedTools | pkg/server/server.go:420-447 | `saved_list` and `saved_complete` are each registered iff `shouldAddTool` admits them under their own opt-in variable |
| Server.AllowListRegistration | pkg/server/server.go:83-100 | a non-empty allow-list registers exactly the listed tools, plus `users_search`, minus message search for a bot token, whatever the environment |
| Server.DefaultRegistration | pkg/server/server.go:83-100 | with no allow-list, tools without an opt-in variable are registered, with message search for user tokens only, and an opt-in tool is registered exactly when its variable is set |
| Server.IsAuthError | pkg/server/server.go:574-580 | mentioning one of the four codes of `AuthErrors` is the same as containing `invalid_auth`, `not_authed`, `token_expired` or `token_revoked` |
| Server.IsSlackAuthError | pkg/server/server.go:573-581 | true exactly when the message contains one of `invalid_auth`, `not_authed`, `token_expired`, `token_revoked` |
| Server.AuthHint | pkg/server/server.go:559-565 | the expired-session hint contains the original error text and is strictly longer than it |
| Server.RecoverErrors | pkg/server/server.go:549-571 | no error ever passes the middleware; a handler error becomes an error result containing the error's text; the text is rewritten exactly when it is an authentication error; a result without error passes through unchanged |
| Saved.FirstStop | pkg/handler/saved.go:53-65 | the paging loop ends at the first answer that is an error or has no next cursor |
| Saved.FetchAllSaved | pkg/handler/saved.go:49-65 | the first call sends the caller's cursor and each later call the previous page's cursor; the result is the first error, or else all items of the pages up to the last, in page order |
| Saved.CursorsSentAt | pkg/handler/saved.go:49-64 | call k sends the caller's cursor when k = 0, and otherwise the next cursor of answer k-1 |
| Saved.FirstStopIgnoresLater | pkg/handler/saved.go:53-65 | answers after the one that stops the loop have no effect on where it stops |
| Saved.ConcatAppend | pkg/handler/saved.go:60 | the items collected over two runs of pages are the items of the first run followed by those of the second |
| Saved.ConcatStep | pkg/handler/saved.go:60 | collecting one more page appends all of its items at the end of the collection |
| Saved.WorkspaceURL | pkg/handler/saved.go:69-72 | the workspace URL is a prefix of the identity lookup's URL that does not end in `/`, and only `/` characters were removed from it; it is "" when the lookup failed |
| Saved.Permalink | pkg/handler/saved.go:100-104 | the link is empty iff the workspace URL or the timestamp is empty; otherwise it starts with the workspace URL |
| Saved.PermalinkOfTimestamp | pkg/handler/saved.go:103 | a `seconds.micros` timestamp gives `<workspace>/archives/<channel>/p<seconds><micros>` |
| Saved.PermalinkMessagePart | pkg/handler/saved.go:103 | after the `/p` prefix, the link holds no dot and is no longer than the timestamp |
| Saved.ChannelName | pkg/handler/saved.go:80-85 | the cached channel name when the cache exists and has the channel, otherwise "" |
| Saved.DateColumn | pkg/handler/saved.go:87-95 | the formatted time for a positive Unix time, "" for zero or a negative one |
| Saved.UserName | pkg/handler/saved.go:171-177 | the cached real name when the cache exists and has the user, otherwise the raw user ID |
| Saved.CleanText | pkg/handler/saved.go:179-181 | the cleaned text has no newline and is never longer than the message text |
| Saved.FetchMessageText | pkg/handler/saved.go:150-184 | ("", "") when the history lookup fails or returns no message; otherwise the author's name and the first message's cleaned text, which never holds a newline |
| Saved.MakeRow | pkg/handler/saved.go:79-116 | every column of a row: channel, ts and state copied from the item, an empty cursor, the channel name, both dates, the author and text, and the permalink |
| Saved.BuildRows | pkg/handler/saved.go:78-117 | one row per item, in item order, each equal to the item's row |
| Saved.SavedList | pkg/handler/saved.go:46-117 | the first listing error, or one row per collected item in order, with every permalink built from the workspace URL |
| Saved.SavedComplete | pkg/handler/saved.go:128-147 | "channel is required" when the channel is empty; otherwise "ts is required" when ts is empty; otherwise the backend's error, or "Item marked as complete." |
| Saved.SavedCompleteValidatesFirst | pkg/handler/saved.go:131-139 | a missing parameter gives an error whatever the backend would do, so the backend is never consulted |

## Left out

- `pkg/provider` (directory caches, credential routing, rate limiting, HTTP transport) is not modelled; its answers appear only as inputs.
- The MCP plumbing is not modelled: tool schemas, descriptions and annotations, the resource registrations, the `Serve*` transports and `server.WithRecovery`.
- The logging middleware and the authentication middleware of `NewMCPServer` are not modelled. Neither changes which tools are registered.
- The start-up `AuthTest` call of `NewMCPServer`, which ends the process on failure and logs the workspace, is not modelled.
- Every `zap` logging call is left out, because logging does not change results.
- Saved.SavedList: returns the rows rather than their CSV text. `gocsv` marshalling and its error path belong to an external library.
- Saved.DateColumn: `time.Unix(…).UTC().Format(time.RFC3339)` is a function parameter. Only the `> 0` guard is modelled.
- Saved.FetchAllSaved: requires that some backend answer ends the loop. A backend that hands out cursors forever makes the source loop forever, and that case is not modelled.
- Request parameter parsing (`GetString` with its defaults) is not modelled. The handlers' parameters are plain strings, with "" standing for an absent parameter.
- The backend calls are inputs:
  - the saved-list answers;
  - the `AuthTest` answer, whose URL is the only part used;
  - the history lookup, whose request parameters (latest = oldest = ts, limit 1, inclusive) are not modelled;
  - the completion call.
  Context cancellation is not modelled.
- The channel and user cache records are reduced to the fields read here: the channel name and the user's real name.
- Server.RegisterTools: the registered tools are a `set<Tool>` rather than the server's name-keyed table. This loses nothing, because `Tool.Name` is injective. Registration order and duplicate registration are not modelled.
- Strings are sequences of code points. Go strings are bytes, and since every literal and pattern involved is ASCII, only lengths measured in bytes would differ.
