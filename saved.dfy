/**
 * The saved-items tools: `saved_list` gathers every page of the user's saved items and turns
 * each item into a row (channel, its cached name, dates, author, cleaned text, permalink);
 * `saved_complete` checks its two parameters before asking the backend to mark an item done.
 *
 * The backend and the caches are inputs: the answers to successive list calls, the answer of
 * the workspace lookup, the history lookup per (channel, ts), and the two caches, each of which
 * may be absent (nil).
 */
module Saved {
  import opened Wrappers
  import opened Strings
  import opened LinkMarkup

  // ---------------------------------------------------------------------------
  // Backend records

  /** One saved item as the backend lists it; the dates are Unix seconds, 0 when unset. */
  datatype SavedItem = SavedItem(itemID: string, ts: string, state: string, dateCreated: int, dateDue: int)

  /** One page of the saved-items listing and the cursor of the next page ("" on the last). */
  datatype Page = Page(savedItems: seq<SavedItem>, nextCursor: string)

  /** A message of a conversation's history. */
  datatype Message = Message(user: string, text: string)

  /** The cached channel record; only its name is used here. */
  datatype Channel = Channel(name: string)

  /** The cached user record; only the real name is used here. */
  datatype User = User(realName: string)

  /** The channels cache, keyed by channel ID (`None` when the provider has none). */
  datatype ChannelsCache = ChannelsCache(channels: map<string, Channel>)

  /** The users cache, keyed by user ID (`None` when the provider has none). */
  datatype UsersCache = UsersCache(users: map<string, User>)

  /** One output row of `saved_list`, a CSV record with these ten columns. */
  datatype SavedItemRow = SavedItemRow(
    channel: string, channelName: string, ts: string, state: string, dateSaved: string,
    dateDue: string, user: string, text: string, link: string, cursor: string)

  // ---------------------------------------------------------------------------
  // Pagination

  /** An answer that ends the paging loop: an error, or a page without a next cursor. */
  predicate Stops(answer: Result<Page>)
  {
    answer.Failure? || answer.value.nextCursor == ""
  }

  /** Some answer ends the loop; without one the source pages forever. */
  predicate EventuallyStops(answers: seq<Result<Page>>)
  {
    exists k :: 0 <= k < |answers| && Stops(answers[k])
  }

  /** The call at which the paging loop ends: the first answer that stops it. */
  function FirstStop(answers: seq<Result<Page>>): (n: nat)
    requires EventuallyStops(answers)
    ensures n < |answers| && Stops(answers[n])
    ensures forall k :: 0 <= k < n ==> !Stops(answers[k])
  {
    if Stops(answers[0]) then 0
    else
      var k :| 0 <= k < |answers| && Stops(answers[k]);
      assert Stops(answers[1..][k - 1]);
      1 + FirstStop(answers[1..])
  }

  /** The items of an answer (none for an error). */
  function ItemsOf(answer: Result<Page>): seq<SavedItem>
  {
    if answer.Success? then answer.value.savedItems else []
  }

  /** The items of a run of answers, concatenated in call order. */
  function Concat(answers: seq<Result<Page>>): seq<SavedItem>
  {
    if answers == [] then [] else Concat(answers[..|answers| - 1]) + ItemsOf(answers[|answers| - 1])
  }

  /** The cursor an answer hands on ("" for an error). */
  function NextCursor(answer: Result<Page>): string
  {
    if answer.Success? then answer.value.nextCursor else ""
  }

  /** The cursors sent with successive calls: `cursor` first, then each answer's next cursor. */
  function CursorsSent(cursor: string, answers: seq<Result<Page>>): (sent: seq<string>)
    ensures |sent| == |answers| + 1
  {
    if answers == [] then [cursor]
    else CursorsSent(cursor, answers[..|answers| - 1]) + [NextCursor(answers[|answers| - 1])]
  }

  /** The first call uses the caller's cursor and every later call the previous answer's cursor. */
  lemma {:induction false} CursorsSentAt(cursor: string, answers: seq<Result<Page>>, k: nat)
    requires k <= |answers|
    ensures CursorsSent(cursor, answers)[k] == if k == 0 then cursor else NextCursor(answers[k - 1])
  {
    if answers != [] && k < |answers| {
      var init := answers[..|answers| - 1];
      CursorsSentAt(cursor, init, k);
      assert k > 0 ==> init[k - 1] == answers[k - 1];
    }
  }

  /**
   * The paging loop of `SavedListHandler`. The k-th list call is answered by `answers[k]`;
   * `requested` records the cursor sent with each call.
   */
  method FetchAllSaved(cursor: string, answers: seq<Result<Page>>)
    returns (result: Result<seq<SavedItem>>, requested: seq<string>)
    requires EventuallyStops(answers)
    ensures requested == CursorsSent(cursor, answers[..FirstStop(answers)])
    ensures answers[FirstStop(answers)].Failure? ==> result == Failure(answers[FirstStop(answers)].error)
    ensures answers[FirstStop(answers)].Success? ==> result == Success(Concat(answers[..FirstStop(answers) + 1]))
  {
    ghost var n := FirstStop(answers);
    var cur := cursor;
    var allSavedItems: seq<SavedItem> := [];
    var i := 0;
    requested := [];
    while true
      invariant 0 <= i <= n
      invariant requested + [cur] == CursorsSent(cursor, answers[..i])
      invariant allSavedItems == Concat(answers[..i])
      decreases n - i
    {
      requested := requested + [cur];
      var answer := answers[i];
      if answer.Failure? {
        assert i == n;
        return Failure(answer.error), requested;
      }
      ConcatStep(answers, i);
      allSavedItems := allSavedItems + answer.value.savedItems;
      if answer.value.nextCursor == "" {
        assert i == n;
        break;
      }
      assert i < n;
      assert answers[..i + 1][..i] == answers[..i];
      cur := answer.value.nextCursor;
      i := i + 1;
    }
    return Success(allSavedItems), requested;
  }

  /** Answers after the first stop are never looked at. */
  lemma {:induction false} FirstStopIgnoresLater(answers: seq<Result<Page>>, later: seq<Result<Page>>)
    requires EventuallyStops(answers)
    ensures EventuallyStops(answers + later)
    ensures FirstStop(answers + later) == FirstStop(answers)
  {
    var n := FirstStop(answers);
    assert (answers + later)[n] == answers[n];
    if n > 0 {
      assert Stops(answers[1..][n - 1]);
      FirstStopIgnoresLater(answers[1..], later);
      assert (answers + later)[1..] == answers[1..] + later;
    }
  }

  /** The items of a run are the items of its pages, page after page. */
  lemma {:induction false} ConcatAppend(a: seq<Result<Page>>, b: seq<Result<Page>>)
    ensures Concat(a + b) == Concat(a) + Concat(b)
    decreases |b|
  {
    if b == [] {
      assert a + b == a;
    } else {
      var b', last := b[..|b| - 1], b[|b| - 1];
      var ab := a + b;
      assert ab[..|ab| - 1] == a + b' && ab[|ab| - 1] == last;
      assert Concat(ab) == Concat(a + b') + ItemsOf(last);
      ConcatAppend(a, b');
      assert Concat(b) == Concat(b') + ItemsOf(last);
    }
  }

  /** Collecting one more page appends all of its items at the end. */
  lemma {:induction false} ConcatStep(answers: seq<Result<Page>>, k: nat)
    requires k < |answers|
    ensures Concat(answers[..k + 1]) == Concat(answers[..k]) + ItemsOf(answers[k])
  {
    assert answers[..k + 1][..k] == answers[..k];
  }

  // ---------------------------------------------------------------------------
  // Row building

  /** The workspace URL from the identity lookup, trailing slashes dropped; "" when it failed. */
  function WorkspaceURL(auth: Result<string>): (url: string)
    ensures url == [] || url[|url| - 1] != '/'
    ensures auth.Success? ==> url <= auth.value
    ensures auth.Success? ==> forall k :: |url| <= k < |auth.value| ==> auth.value[k] == '/'
    ensures auth.Failure? ==> url == ""
  {
    if auth.Success? then TrimTrailingSlashes(auth.value) else ""
  }

  /** The permalink of a message: "" unless both the workspace URL and the timestamp are known. */
  function Permalink(workspaceURL: string, channel: string, ts: string): (link: string)
    ensures link == "" <==> workspaceURL == "" || ts == ""
    ensures link != "" ==> workspaceURL <= link
  {
    if workspaceURL != "" && ts != "" then
      workspaceURL + "/archives/" + channel + "/p" + DeleteDots(ts)
    else ""
  }

  /** A `seconds.micros` timestamp becomes the digits `p` + seconds + micros. */
  lemma PermalinkOfTimestamp(workspaceURL: string, channel: string, seconds: string, micros: string)
    requires workspaceURL != ""
    requires '.' !in seconds && '.' !in micros
    ensures Permalink(workspaceURL, channel, seconds + "." + micros)
         == workspaceURL + "/archives/" + channel + "/p" + seconds + micros
  {
    DeleteDotsAround(seconds, micros);
  }

  /** The permalink's message part has no dot and is no longer than the timestamp. */
  lemma PermalinkMessagePart(workspaceURL: string, channel: string, ts: string)
    requires workspaceURL != "" && ts != ""
    ensures var prefix := workspaceURL + "/archives/" + channel + "/p";
            var link := Permalink(workspaceURL, channel, ts);
            prefix <= link && '.' !in link[|prefix|..] && |link| - |prefix| <= |ts|
  {
    var prefix := workspaceURL + "/archives/" + channel + "/p";
    var link := Permalink(workspaceURL, channel, ts);
    assert link == prefix + DeleteDots(ts);
    assert link[|prefix|..] == DeleteDots(ts);
  }

  /** The channel's cached name, or "" when there is no cache or no entry. */
  function ChannelName(cache: Option<ChannelsCache>, channel: string): (name: string)
    ensures cache.Some? && channel in cache.value.channels ==> name == cache.value.channels[channel].name
    ensures cache.None? || channel !in cache.value.channels ==> name == ""
  {
    if cache.Some? && channel in cache.value.channels then cache.value.channels[channel].name else ""
  }

  /** A date column: the formatted time for a positive Unix time, "" otherwise. */
  function DateColumn(unix: int, rfc3339: int -> string): (date: string)
    ensures unix <= 0 ==> date == ""
    ensures unix > 0 ==> date == rfc3339(unix)
  {
    if unix > 0 then rfc3339(unix) else ""
  }

  /** The author's cached real name, or the raw user ID when it is not cached. */
  function UserName(cache: Option<UsersCache>, user: string): (name: string)
    ensures cache.Some? && user in cache.value.users ==> name == cache.value.users[user].realName
    ensures cache.None? || user !in cache.value.users ==> name == user
  {
    if cache.Some? && user in cache.value.users then cache.value.users[user].realName else user
  }

  /** Message text as shown: link markup reduced to its targets, newlines turned into spaces. */
  function CleanText(text: string): (r: string)
    ensures '\n' !in r
    ensures |r| <= |text|
  {
    NewlinesToSpaces(StripLinks(text))
  }

  /**
   * `fetchMessageText`: the author and cleaned text of the message the history lookup
   * returned, or two empty strings when the lookup failed or found nothing.
   */
  function FetchMessageText(history: Result<seq<Message>>, users: Option<UsersCache>): (r: (string, string))
    ensures history.Failure? || history.value == [] ==> r == ("", "")
    ensures history.Success? && history.value != [] ==>
              r.0 == UserName(users, history.value[0].user) && r.1 == CleanText(history.value[0].text)
    ensures '\n' !in r.1
  {
    if history.Failure? || |history.value| == 0 then ("", "")
    else
      var msg := history.value[0];
      (UserName(users, msg.user), CleanText(msg.text))
  }

  /** The row of one saved item. */
  function MakeRow(item: SavedItem, workspaceURL: string, channels: Option<ChannelsCache>,
                   users: Option<UsersCache>, history: (string, string) -> Result<seq<Message>>,
                   rfc3339: int -> string): (row: SavedItemRow)
    ensures row.channel == item.itemID && row.ts == item.ts && row.state == item.state
    ensures row.cursor == ""
    ensures row.channelName == ChannelName(channels, item.itemID)
    ensures row.dateSaved == DateColumn(item.dateCreated, rfc3339)
    ensures row.dateDue == DateColumn(item.dateDue, rfc3339)
    ensures (row.user, row.text) == FetchMessageText(history(item.itemID, item.ts), users)
    ensures row.link == Permalink(workspaceURL, item.itemID, item.ts)
  {
    var (msgUser, msgText) := FetchMessageText(history(item.itemID, item.ts), users);
    SavedItemRow(
      item.itemID, ChannelName(channels, item.itemID), item.ts, item.state,
      DateColumn(item.dateCreated, rfc3339), DateColumn(item.dateDue, rfc3339),
      msgUser, msgText, Permalink(workspaceURL, item.itemID, item.ts), "")
  }

  /** The row loop of `SavedListHandler`: one row per item, in item order. */
  method BuildRows(items: seq<SavedItem>, workspaceURL: string, channels: Option<ChannelsCache>,
                   users: Option<UsersCache>, history: (string, string) -> Result<seq<Message>>,
                   rfc3339: int -> string)
    returns (rows: seq<SavedItemRow>)
    ensures |rows| == |items|
    ensures forall i :: 0 <= i < |items| ==> rows[i] == MakeRow(items[i], workspaceURL, channels, users, history, rfc3339)
  {
    rows := [];
    for i := 0 to |items|
      invariant |rows| == i
      invariant forall j :: 0 <= j < i ==> rows[j] == MakeRow(items[j], workspaceURL, channels, users, history, rfc3339)
    {
      var item := items[i];
      var channelName := ChannelName(channels, item.itemID);
      var dateSaved := DateColumn(item.dateCreated, rfc3339);
      var dateDue := DateColumn(item.dateDue, rfc3339);
      var (msgUser, msgText) := FetchMessageText(history(item.itemID, item.ts), users);
      var link := Permalink(workspaceURL, item.itemID, item.ts);
      rows := rows + [SavedItemRow(item.itemID, channelName, item.ts, item.state, dateSaved, dateDue,
                                   msgUser, msgText, link, "")];
    }
  }

  /**
   * `SavedListHandler` up to the CSV rendering: the rows of every saved item from `cursor`
   * on, or the first listing error.
   */
  method SavedList(cursor: string, answers: seq<Result<Page>>, auth: Result<string>,
                   channels: Option<ChannelsCache>, users: Option<UsersCache>,
                   history: (string, string) -> Result<seq<Message>>, rfc3339: int -> string)
    returns (result: Result<seq<SavedItemRow>>)
    requires EventuallyStops(answers)
    ensures answers[FirstStop(answers)].Failure? ==> result == Failure(answers[FirstStop(answers)].error)
    ensures answers[FirstStop(answers)].Success? ==>
              var items := Concat(answers[..FirstStop(answers) + 1]);
              result.Success? && |result.value| == |items|
              && forall i :: 0 <= i < |items| ==>
                   result.value[i] == MakeRow(items[i], WorkspaceURL(auth), channels, users, history, rfc3339)
  {
    var fetched, _ := FetchAllSaved(cursor, answers);
    if fetched.Failure? {
      return Failure(fetched.error);
    }
    var workspaceURL := WorkspaceURL(auth);
    var rows := BuildRows(fetched.value, workspaceURL, channels, users, history, rfc3339);
    return Success(rows);
  }

  // ---------------------------------------------------------------------------
  // Completing an item

  /**
   * `SavedCompleteHandler`: `channel` is checked first, then `ts`; only then is the backend
   * asked to complete the item, and its error, if any, is passed on.
   */
  function SavedComplete(channel: string, ts: string, complete: (string, string) -> Option<string>): (r: Result<string>)
    ensures channel == "" ==> r == Failure("channel is required")
    ensures channel != "" && ts == "" ==> r == Failure("ts is required")
    ensures channel != "" && ts != "" && complete(channel, ts).Some? ==> r == Failure(complete(channel, ts).value)
    ensures channel != "" && ts != "" && complete(channel, ts).None? ==> r == Success("Item marked as complete.")
  {
    if channel == "" then Failure("channel is required")
    else if ts == "" then Failure("ts is required")
    else match complete(channel, ts)
      case Some(e) => Failure(e)
      case None => Success("Item marked as complete.")
  }

  /** A missing parameter is reported without consulting the backend at all. */
  lemma SavedCompleteValidatesFirst(channel: string, ts: string,
                                    complete: (string, string) -> Option<string>,
                                    other: (string, string) -> Option<string>)
    requires channel == "" || ts == ""
    ensures SavedComplete(channel, ts, complete) == SavedComplete(channel, ts, other)
    ensures SavedComplete(channel, ts, complete).Failure?
  {
  }
}
