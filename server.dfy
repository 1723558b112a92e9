/**
 * Tool gating and error classification of the MCP server: which tool names may be
 * allow-listed, which tools get registered for a given allow-list, environment and
 * token kind, and how a failing tool handler is turned into an error result.
 */
module Server {
  import opened Wrappers
  import opened Strings

  /** The tools the server knows, one per `AddTool` call in `NewMCPServer`. */
  datatype Tool =
    | ConversationsHistory | ConversationsReplies | ConversationsAddMessage
    | ReactionsAdd | ReactionsRemove | AttachmentGetData | ConversationsSearchMessages
    | UsersSearch | ChannelsList
    | UsergroupsList | UsergroupsMe | UsergroupsCreate | UsergroupsUpdate | UsergroupsUsersUpdate
    | SavedList | SavedComplete
  {
    /** The name the tool is registered and allow-listed under. */
    function Name(): string
    {
      match this
      case ConversationsHistory => "conversations_history"
      case ConversationsReplies => "conversations_replies"
      case ConversationsAddMessage => "conversations_add_message"
      case ReactionsAdd => "reactions_add"
      case ReactionsRemove => "reactions_remove"
      case AttachmentGetData => "attachment_get_data"
      case ConversationsSearchMessages => "conversations_search_messages"
      case UsersSearch => "users_search"
      case ChannelsList => "channels_list"
      case UsergroupsList => "usergroups_list"
      case UsergroupsMe => "usergroups_me"
      case UsergroupsCreate => "usergroups_create"
      case UsergroupsUpdate => "usergroups_update"
      case UsergroupsUsersUpdate => "usergroups_users_update"
      case SavedList => "saved_list"
      case SavedComplete => "saved_complete"
    }

    /** The opt-in environment variable `NewMCPServer` passes for the tool ("" = none). */
    function EnvGate(): string
    {
      match this
      case ConversationsAddMessage => "SLACK_MCP_ADD_MESSAGE_TOOL"
      case ReactionsAdd | ReactionsRemove => "SLACK_MCP_REACTION_TOOL"
      case AttachmentGetData => "SLACK_MCP_ATTACHMENT_TOOL"
      case SavedList => "SLACK_MCP_SAVED_LIST_TOOL"
      case SavedComplete => "SLACK_MCP_SAVED_COMPLETE_TOOL"
      case _ => ""
    }
  }

  /** The catalogue an allow-list is checked against, in source order. */
  const ValidToolNames: seq<string> := [
    ConversationsHistory.Name(),
    ConversationsReplies.Name(),
    ConversationsAddMessage.Name(),
    ReactionsAdd.Name(),
    ReactionsRemove.Name(),
    AttachmentGetData.Name(),
    ConversationsSearchMessages.Name(),
    ChannelsList.Name(),
    UsergroupsList.Name(),
    UsergroupsMe.Name(),
    UsergroupsCreate.Name(),
    UsergroupsUpdate.Name(),
    UsergroupsUsersUpdate.Name(),
    SavedList.Name(),
    SavedComplete.Name()
  ]

  /** The catalogue has fifteen distinct names: every tool but `users_search`. */
  lemma CatalogueShape()
    ensures |ValidToolNames| == 15
    ensures forall i, j :: 0 <= i < j < |ValidToolNames| ==> ValidToolNames[i] != ValidToolNames[j]
    ensures forall t: Tool :: t.Name() in ValidToolNames <==> t != UsersSearch
  {
  }

  // ---------------------------------------------------------------------------
  // Allow-list validation

  /** The entries of `tools` that are not in `catalogue`, in input order, duplicates kept. */
  function InvalidTools(tools: seq<string>, catalogue: seq<string>): (r: seq<string>)
    ensures |r| <= |tools|
    ensures forall t :: t in r ==> t in tools && t !in catalogue
  {
    if tools == [] then []
    else (if tools[0] in catalogue then [] else [tools[0]]) + InvalidTools(tools[1..], catalogue)
  }

  /** The error text reported for a non-empty list of invalid names. */
  function InvalidToolsMessage(invalid: seq<string>, catalogue: seq<string>): (msg: string)
    ensures "invalid tool name(s): " <= msg
    ensures |Join(catalogue, ", ")| <= |msg| && msg[|msg| - |Join(catalogue, ", ")|..] == Join(catalogue, ", ")
    ensures |msg| == |"invalid tool name(s): . Valid tools are: "| + |Join(invalid, ", ")| + |Join(catalogue, ", ")|
  {
    "invalid tool name(s): " + Join(invalid, ", ") + ". Valid tools are: " + Join(catalogue, ", ")
  }

  /** The first loop of `ValidateEnabledTools`: a lookup table marking every catalogue name. */
  method LookupTable(names: seq<string>) returns (table: map<string, bool>)
    ensures forall n :: n in table <==> n in names
    ensures forall n :: n in table ==> table[n]
  {
    table := map[];
    for i := 0 to |names|
      invariant forall n :: n in table <==> n in names[..i]
      invariant forall n :: n in table ==> table[n]
    {
      table := table[names[i] := true];
    }
    assert names[..|names|] == names;
  }

  /** The second loop of `ValidateEnabledTools`: the entries the lookup table does not mark. */
  method CollectInvalid(tools: seq<string>, table: map<string, bool>, catalogue: seq<string>)
    returns (invalidTools: seq<string>)
    requires forall n :: n in table <==> n in catalogue
    requires forall n :: n in table ==> table[n]
    ensures invalidTools == InvalidTools(tools, catalogue)
  {
    invalidTools := [];
    for j := 0 to |tools|
      invariant invalidTools == InvalidTools(tools[..j], catalogue)
    {
      var tool := tools[j];
      var known := tool in table && table[tool];
      assert known <==> tool in catalogue;
      assert tools[..j + 1] == tools[..j] + [tool];
      InvalidToolsAppend(tools[..j], [tool], catalogue);
      assert [tool][1..] == [];
      if !known {
        invalidTools := invalidTools + [tool];
      }
    }
    assert tools[..|tools|] == tools;
  }

  /**
   * Checks a user-supplied allow-list against a catalogue: `None` when every entry is
   * known, otherwise an error naming exactly the unknown entries.
   */
  method ValidateAgainst(tools: seq<string>, catalogue: seq<string>) returns (err: Option<string>)
    ensures err.None? <==> forall t :: t in tools ==> t in catalogue
    ensures err.Some? ==> err == Some(InvalidToolsMessage(InvalidTools(tools, catalogue), catalogue))
  {
    var validToolSet := LookupTable(catalogue);
    var invalidTools := CollectInvalid(tools, validToolSet, catalogue);
    InvalidToolsEmpty(tools, catalogue);
    if |invalidTools| > 0 {
      return Some(InvalidToolsMessage(invalidTools, catalogue));
    }
    return None;
  }

  /** `ValidateEnabledTools`: the allow-list checked against `ValidToolNames`. */
  method ValidateEnabledTools(tools: seq<string>) returns (err: Option<string>)
    ensures err.None? <==> forall t :: t in tools ==> t in ValidToolNames
    ensures err.Some? ==> err == Some(InvalidToolsMessage(InvalidTools(tools, ValidToolNames), ValidToolNames))
  {
    err := ValidateAgainst(tools, ValidToolNames);
  }

  /** Checking a concatenation reports the invalid names of each part, in order. */
  lemma {:induction false} InvalidToolsAppend(a: seq<string>, b: seq<string>, catalogue: seq<string>)
    ensures InvalidTools(a + b, catalogue) == InvalidTools(a, catalogue) + InvalidTools(b, catalogue)
  {
    if a == [] {
      assert a + b == b;
    } else {
      assert (a + b)[1..] == a[1..] + b;
      InvalidToolsAppend(a[1..], b, catalogue);
    }
  }

  /** No name is reported exactly when every entry is in the catalogue; an empty list is valid. */
  lemma {:induction false} InvalidToolsEmpty(tools: seq<string>, catalogue: seq<string>)
    ensures InvalidTools(tools, catalogue) == [] <==> forall t :: t in tools ==> t in catalogue
    ensures tools == [] ==> InvalidTools(tools, catalogue) == []
  {
    if tools != [] {
      InvalidToolsEmpty(tools[1..], catalogue);
      assert forall t :: t in tools ==> t == tools[0] || t in tools[1..];
    }
  }

  /** Each unknown name is reported as often as it occurs; known names are never reported. */
  lemma {:induction false} InvalidToolsCount(tools: seq<string>, catalogue: seq<string>, t: string)
    ensures multiset(InvalidTools(tools, catalogue))[t] == if t in catalogue then 0 else multiset(tools)[t]
  {
    if tools != [] {
      var h, tail := tools[0], tools[1..];
      var rest := InvalidTools(tail, catalogue);
      InvalidToolsCount(tail, catalogue, t);
      assert tools == [h] + tail;
      assert multiset(tools)[t] == multiset([h])[t] + multiset(tail)[t];
      if h in catalogue {
        assert InvalidTools(tools, catalogue) == rest;
      } else {
        assert InvalidTools(tools, catalogue) == [h] + rest;
        assert multiset([h] + rest)[t] == multiset([h])[t] + multiset(rest)[t];
      }
    }
  }

  /** The error text names every unknown entry. */
  lemma InvalidToolsMessageNamesEach(tools: seq<string>, catalogue: seq<string>, k: nat)
    requires k < |InvalidTools(tools, catalogue)|
    ensures Contains(InvalidToolsMessage(InvalidTools(tools, catalogue), catalogue), InvalidTools(tools, catalogue)[k])
  {
    var invalid := InvalidTools(tools, catalogue);
    JoinContains(invalid, ", ", k);
    var tail := ". Valid tools are: " + Join(catalogue, ", ");
    ContainsWithin("invalid tool name(s): ", Join(invalid, ", "), tail, invalid[k]);
    assert InvalidToolsMessage(invalid, catalogue) == "invalid tool name(s): " + Join(invalid, ", ") + tail;
  }

  // ---------------------------------------------------------------------------
  // Tool registration

  /** `os.Getenv`: an unset variable reads as the empty string. */
  function Getenv(env: map<string, string>, name: string): (value: string)
    ensures name in env ==> value == env[name]
    ensures name !in env ==> value == ""
  {
    if name in env then env[name] else ""
  }

  /** `shouldAddTool`: whether a tool passes the allow-list and its opt-in variable. */
  predicate ShouldAddTool(name: string, enabledTools: seq<string>, envVarName: string, env: map<string, string>): (add: bool)
    ensures add ==> |enabledTools| == 0 || name in enabledTools
    ensures |enabledTools| > 0 && name in enabledTools ==> add
    ensures |enabledTools| == 0 && envVarName == "" ==> add
  {
    if envVarName == "" then
      if |enabledTools| == 0 then true else name in enabledTools
    else if |enabledTools| > 0 && name in enabledTools then true
    else if |enabledTools| == 0 then Getenv(env, envVarName) != ""
    else false
  }

  /**
   * Without an opt-in variable the allow-list alone decides and an empty list admits
   * everything; with one, an empty allow-list defers to the variable being non-empty and a
   * non-empty list decides alone.
   */
  lemma ShouldAddToolCases(name: string, enabledTools: seq<string>, envVarName: string, env: map<string, string>)
    ensures envVarName == "" ==> (ShouldAddTool(name, enabledTools, envVarName, env) <==> |enabledTools| == 0 || name in enabledTools)
    ensures envVarName != "" && |enabledTools| == 0 ==> (ShouldAddTool(name, enabledTools, envVarName, env) <==> Getenv(env, envVarName) != "")
    ensures envVarName != "" && |enabledTools| > 0 ==> (ShouldAddTool(name, enabledTools, envVarName, env) <==> name in enabledTools)
  {
  }

  /** With a non-empty allow-list the opt-in variable and the environment make no difference. */
  lemma AllowListOverridesEnv(name: string, enabledTools: seq<string>, envVarName: string,
                              env: map<string, string>, env': map<string, string>)
    requires |enabledTools| > 0
    ensures ShouldAddTool(name, enabledTools, envVarName, env) == ShouldAddTool(name, enabledTools, "", env')
  {
  }

  /** Whether a tool passes `shouldAddTool` with the name and opt-in variable it is registered under. */
  predicate Configured(t: Tool, enabledTools: seq<string>, env: map<string, string>)
  {
    ShouldAddTool(t.Name(), enabledTools, t.EnvGate(), env)
  }

  /** Whether `NewMCPServer` registers a tool: `users_search` always, message search only for user tokens. */
  predicate Admitted(t: Tool, enabledTools: seq<string>, env: map<string, string>, isBotToken: bool)
  {
    t == UsersSearch || (Configured(t, enabledTools, env) && !(isBotToken && t == ConversationsSearchMessages))
  }

  /** The tools `NewMCPServer` registers for an allow-list, an environment and a token kind. */
  function Registered(enabledTools: seq<string>, env: map<string, string>, isBotToken: bool): (r: set<Tool>)
    ensures UsersSearch in r
    ensures isBotToken ==> ConversationsSearchMessages !in r
  {
    set t: Tool | Admitted(t, enabledTools, env, isBotToken)
  }

  /** `if shouldAddTool(...) { s.AddTool(...) }`: one guarded registration step. */
  method AddToolIf(registered: set<Tool>, tool: Tool, admit: bool) returns (r: set<Tool>)
    ensures forall t :: t in r <==> t in registered || (t == tool && admit)
  {
    r := registered;
    if admit {
      r := r + {tool};
    }
  }

  /**
   * The registration sequence of `NewMCPServer`: sixteen steps in source order, taken in the
   * five consecutive blocks below (conversations, search, channels, user groups, saved items).
   */
  method RegisterTools(enabledTools: seq<string>, env: map<string, string>, isBotToken: bool)
    returns (registered: set<Tool>)
    ensures registered == Registered(enabledTools, env, isBotToken)
  {
    var conversations := RegisterConversationsTools(enabledTools, env);
    var search := RegisterSearchTools(enabledTools, env, isBotToken);
    var channels := RegisterChannelsTools(enabledTools, env);
    var usergroups := RegisterUsergroupsTools(enabledTools, env);
    var saved := RegisterSavedTools(enabledTools, env);
    registered := conversations + search + channels + usergroups + saved;
  }

  /** History, replies, posting, reactions and attachments; the last four are opt-in. */
  method RegisterConversationsTools(enabledTools: seq<string>, env: map<string, string>)
    returns (registered: set<Tool>)
    ensures forall t :: t in registered <==> t in {ConversationsHistory, ConversationsReplies, ConversationsAddMessage, ReactionsAdd, ReactionsRemove, AttachmentGetData} && Configured(t, enabledTools, env)
  {
    registered := {};
    registered := AddToolIf(registered, ConversationsHistory, ShouldAddTool(ConversationsHistory.Name(), enabledTools, ConversationsHistory.EnvGate(), env));
    registered := AddToolIf(registered, ConversationsReplies, ShouldAddTool(ConversationsReplies.Name(), enabledTools, ConversationsReplies.EnvGate(), env));
    registered := AddToolIf(registered, ConversationsAddMessage, ShouldAddTool(ConversationsAddMessage.Name(), enabledTools, ConversationsAddMessage.EnvGate(), env));
    registered := AddToolIf(registered, ReactionsAdd, ShouldAddTool(ReactionsAdd.Name(), enabledTools, ReactionsAdd.EnvGate(), env));
    registered := AddToolIf(registered, ReactionsRemove, ShouldAddTool(ReactionsRemove.Name(), enabledTools, ReactionsRemove.EnvGate(), env));
    registered := AddToolIf(registered, AttachmentGetData, ShouldAddTool(AttachmentGetData.Name(), enabledTools, AttachmentGetData.EnvGate(), env));
  }

  /** Message search (user tokens only) and the unconditional user search, both served by the conversations handler. */
  method RegisterSearchTools(enabledTools: seq<string>, env: map<string, string>, isBotToken: bool)
    returns (registered: set<Tool>)
    ensures forall t :: t in registered <==> t in {ConversationsSearchMessages, UsersSearch} && Admitted(t, enabledTools, env, isBotToken)
  {
    registered := {};
    registered := AddToolIf(registered, ConversationsSearchMessages, !isBotToken && ShouldAddTool(ConversationsSearchMessages.Name(), enabledTools, ConversationsSearchMessages.EnvGate(), env));
    registered := registered + {UsersSearch};
  }

  /** Channel listing (channels handler). */
  method RegisterChannelsTools(enabledTools: seq<string>, env: map<string, string>)
    returns (registered: set<Tool>)
    ensures forall t :: t in registered <==> t in {ChannelsList} && Configured(t, enabledTools, env)
  {
    registered := {};
    registered := AddToolIf(registered, ChannelsList, ShouldAddTool(ChannelsList.Name(), enabledTools, ChannelsList.EnvGate(), env));
  }

  /** The user-group tools (user-groups handler). */
  method RegisterUsergroupsTools(enabledTools: seq<string>, env: map<string, string>)
    returns (registered: set<Tool>)
    ensures forall t :: t in registered <==> t in {UsergroupsList, UsergroupsMe, UsergroupsCreate, UsergroupsUpdate, UsergroupsUsersUpdate} && Configured(t, enabledTools, env)
  {
    registered := {};
    registered := AddToolIf(registered, UsergroupsList, ShouldAddTool(UsergroupsList.Name(), enabledTools, UsergroupsList.EnvGate(), env));
    registered := AddToolIf(registered, UsergroupsMe, ShouldAddTool(UsergroupsMe.Name(), enabledTools, UsergroupsMe.EnvGate(), env));
    registered := AddToolIf(registered, UsergroupsCreate, ShouldAddTool(UsergroupsCreate.Name(), enabledTools, UsergroupsCreate.EnvGate(), env));
    registered := AddToolIf(registered, UsergroupsUpdate, ShouldAddTool(UsergroupsUpdate.Name(), enabledTools, UsergroupsUpdate.EnvGate(), env));
    registered := AddToolIf(registered, UsergroupsUsersUpdate, ShouldAddTool(UsergroupsUsersUpdate.Name(), enabledTools, UsergroupsUsersUpdate.EnvGate(), env));
  }

  /** The saved-items tools (saved handler), each behind its own opt-in variable. */
  method RegisterSavedTools(enabledTools: seq<string>, env: map<string, string>)
    returns (registered: set<Tool>)
    ensures forall t :: t in registered <==> t in {SavedList, SavedComplete} && Configured(t, enabledTools, env)
  {
    registered := {};
    registered := AddToolIf(registered, SavedList, ShouldAddTool(SavedList.Name(), enabledTools, SavedList.EnvGate(), env));
    registered := AddToolIf(registered, SavedComplete, ShouldAddTool(SavedComplete.Name(), enabledTools, SavedComplete.EnvGate(), env));
  }

  /**
   * A non-empty allow-list registers exactly the listed tools (minus message search for a
   * bot token) plus `users_search`, whatever the environment.
   */
  lemma AllowListRegistration(enabledTools: seq<string>, env: map<string, string>, isBotToken: bool, t: Tool)
    requires |enabledTools| > 0
    ensures t in Registered(enabledTools, env, isBotToken)
        <==> t == UsersSearch || (t.Name() in enabledTools && !(isBotToken && t == ConversationsSearchMessages))
  {
  }

  /**
   * With no allow-list, every tool without an opt-in variable is registered (message search
   * for user tokens only), and an opt-in tool exactly when its variable is set.
   */
  lemma DefaultRegistration(env: map<string, string>, isBotToken: bool, t: Tool)
    ensures t in Registered([], env, isBotToken)
        <==> if t == ConversationsSearchMessages then !isBotToken
             else t.EnvGate() == "" || Getenv(env, t.EnvGate()) != ""
  {
  }

  // ---------------------------------------------------------------------------
  // Error classification and recovery

  /** Backend error codes that mean the session credential is no longer accepted. */
  const AuthErrors: seq<string> := ["invalid_auth", "not_authed", "token_expired", "token_revoked"]

  /** The message mentions at least one authentication error code. */
  predicate IsAuthError(msg: string): (b: bool)
    ensures b <==> (Contains(msg, "invalid_auth") || Contains(msg, "not_authed")
                    || Contains(msg, "token_expired") || Contains(msg, "token_revoked"))
  {
    exists e :: e in AuthErrors && Contains(msg, e)
  }

  /** `isSlackAuthError`: scans the codes in order and stops at the first one found. */
  method IsSlackAuthError(msg: string) returns (b: bool)
    ensures b <==> IsAuthError(msg)
    ensures b <==> (Contains(msg, "invalid_auth") || Contains(msg, "not_authed")
                    || Contains(msg, "token_expired") || Contains(msg, "token_revoked"))
  {
    var authErrors := AuthErrors;
    for i := 0 to |authErrors|
      invariant forall j :: 0 <= j < i ==> !Contains(msg, authErrors[j])
    {
      if Contains(msg, authErrors[i]) {
        return true;
      }
    }
    return false;
  }

  /** The result a tool handler returns to the protocol layer. */
  datatype CallToolResult = CallToolResult(text: string, isError: bool)

  /** What a handler returned: a (possibly nil) result and a (possibly nil) error. */
  datatype HandlerReturn = HandlerReturn(res: Option<CallToolResult>, err: Option<string>)

  /** The text that replaces an authentication failure. */
  function AuthHint(errMsg: string): (r: string)
    ensures Contains(r, errMsg)
    ensures |r| > |errMsg|
  {
    var pre := "Slack authentication failed (";
    var post := "). Your xoxc/xoxd browser session tokens "
             + "have expired. Run the /slack-token-refresh skill to automatically refresh them.";
    ContainsInfix(pre, errMsg, post);
    pre + errMsg + post
  }

  /**
   * The error-recovery middleware applied to what the wrapped handler returned: no error
   * ever reaches the protocol layer; a handler error becomes an error result that carries
   * its text, with the expired-session hint exactly when it is an authentication error.
   */
  function RecoverErrors(out: HandlerReturn): (r: HandlerReturn)
    ensures r.err.None?
    ensures out.err.None? ==> r == out
    ensures out.err.Some? ==> r.res.Some? && r.res.value.isError
                              && Contains(r.res.value.text, out.err.value)
    ensures out.err.Some? ==> (r.res.value.text != out.err.value <==> IsAuthError(out.err.value))
  {
    match out.err
    case Some(e) =>
      ContainsSelf(e);
      var errMsg := if IsAuthError(e) then AuthHint(e) else e;
      HandlerReturn(Some(CallToolResult(errMsg, true)), None)
    case None => HandlerReturn(out.res, None)
  }
}
