/**
 * The per-user conversation history of the bot: a bounded, insertion-ordered
 * list of `{role, content, timestamp}` records, its projections for the
 * completion call and for display, and its durable per-user file.
 */
module History {
  import opened Seqs
  import Texts

  /** `datetime.now().isoformat()`; the clock is a parameter of the model. */
  type Timestamp = string

  /** `MAX_HISTORY_MESSAGES`: how many records a history keeps after an append. */
  const MaxHistoryMessages: nat := 20
  /** How many of the newest records the history display shows. */
  const DisplayWindow: nat := 10
  /** Longest content shown uncut in the history display. */
  const PreviewLimit: nat := 100

  /** One stored record of the history. */
  datatype Message = Message(role: string, content: string, timestamp: Timestamp)

  /** One record as sent to the completion backend: the timestamp is dropped. */
  datatype ContextEntry = ContextEntry(role: string, content: string)

  datatype Option<T> = None | Some(value: T)

  /**
   * The content of a user's history file: a JSON object whose `messages` key may
   * be missing, or a file that cannot be opened or parsed.
   */
  datatype StoredFile = Unreadable | Record(messages: Option<seq<Message>>)

  /** The last `n` elements of `s` (all of `s` when it is shorter): Python's `s[-n:]` for `n > 0`. */
  function Newest<T>(s: seq<T>, n: nat): (r: seq<T>)
    ensures |r| == Min(n, |s|)
    ensures r == s[|s| - |r|..]
  {
    if |s| <= n then s else s[|s| - n..]
  }

  /** The history after `add_message`: append, then keep only the newest `MaxHistoryMessages`. */
  function Added(h: seq<Message>, m: Message): (r: seq<Message>)
    ensures |r| == Min(MaxHistoryMessages, |h| + 1)
    ensures r[|r| - 1] == m
    ensures r[..|r| - 1] == h[|h| + 1 - |r|..]
    ensures |h| < MaxHistoryMessages ==> r == h + [m]
  {
    var r := Newest(h + [m], MaxHistoryMessages);
    assert r[..|r| - 1] == h[|h| + 1 - |r|..];
    r
  }

  /** The history after adding each of `ms` in turn. */
  function AddedAll(h: seq<Message>, ms: seq<Message>): seq<Message>
  {
    if ms == [] then h else Added(AddedAll(h, ms[..|ms| - 1]), ms[|ms| - 1])
  }

  /** Keeping the newest `n` of the newest `n`, after one more element, is keeping the newest `n`. */
  lemma NewestAfterNewest<T>(s: seq<T>, x: T, n: nat)
    ensures Newest(Newest(s, n) + [x], n) == Newest(s + [x], n)
  {
    if |s| > n {
      var t := s[|s| - n..];
      if n > 0 {
        assert t + [x] == (s + [x])[|s| - n..];
        assert (t + [x])[1..] == (s + [x])[|s| + 1 - n..];
      }
    }
  }

  /**
   * Whatever the sequence of appends, the history holds exactly the newest
   * `MaxHistoryMessages` of everything appended after the starting history, in
   * their original order (a loaded history over the cap is only cut at the
   * first append).
   */
  lemma {:induction false} AddedAllKeepsNewest(h: seq<Message>, ms: seq<Message>)
    requires ms != [] || |h| <= MaxHistoryMessages
    ensures AddedAll(h, ms) == Newest(h + ms, MaxHistoryMessages)
  {
    if ms == [] {
      assert h + ms == h;
    } else {
      var init, last := ms[..|ms| - 1], ms[|ms| - 1];
      var prev := AddedAll(h, init);
      SplitLast(h, ms);
      if init == [] {
        assert prev == h + init;
      } else {
        AddedAllKeepsNewest(h, init);
        NewestAfterNewest(h + init, last, MaxHistoryMessages);
      }
    }
  }

  /** `get_context`: each record projected to its role and content, in order. */
  function Context(msgs: seq<Message>): (ctx: seq<ContextEntry>)
    ensures |ctx| == |msgs|
  {
    if msgs == [] then []
    else
      var last := msgs[|msgs| - 1];
      Context(msgs[..|msgs| - 1]) + [ContextEntry(last.role, last.content)]
  }

  /** The context keeps every record's role and content at the record's own position. */
  lemma {:induction false} ContextProjects(msgs: seq<Message>)
    ensures forall i :: 0 <= i < |msgs| ==> Context(msgs)[i] == ContextEntry(msgs[i].role, msgs[i].content)
  {
    if msgs != [] {
      ContextProjects(msgs[..|msgs| - 1]);
    }
  }

  /**
   * The context right after an append is the newest `MaxHistoryMessages` of
   * the previous context followed by the new record's role and content.
   */
  lemma ContextOfAdded(h: seq<Message>, m: Message)
    ensures Context(Added(h, m)) == Newest(Context(h) + [ContextEntry(m.role, m.content)], MaxHistoryMessages)
  {
    assert (h + [m])[..|h|] == h;
    ContextOfNewest(h + [m], MaxHistoryMessages);
  }

  /** Projecting then truncating is truncating then projecting. */
  lemma ContextOfNewest(msgs: seq<Message>, n: nat)
    ensures Context(Newest(msgs, n)) == Newest(Context(msgs), n)
  {
    var r, c := Newest(msgs, n), Newest(Context(msgs), n);
    ContextProjects(msgs);
    ContextProjects(r);
    forall i | 0 <= i < |r|
      ensures Context(r)[i] == c[i]
    {
      assert r[i] == msgs[|msgs| - |r| + i];
      assert c[i] == Context(msgs)[|msgs| - |c| + i];
    }
  }

  /** The displayed form of a content: cut to `PreviewLimit` characters plus `...` when longer. */
  function Preview(content: string): (r: string)
    ensures |r| <= PreviewLimit + 3
    ensures |content| <= PreviewLimit ==> r == content
    ensures |content| > PreviewLimit ==> |r| == PreviewLimit + 3 && r[PreviewLimit..] == "..."
    ensures content[..Min(PreviewLimit, |content|)] <= r
  {
    if |content| > PreviewLimit then content[..PreviewLimit] + "..." else content
  }

  /** The speaker label: the user's label for `user`, the bot's for any other role. */
  function RoleLabel(role: string): (r: string)
    ensures r == Texts.UserLabel <==> role == "user"
    ensures r == Texts.BotLabel <==> role != "user"
  {
    if role == "user" then Texts.UserLabel else Texts.BotLabel
  }

  /** One rendered line of the history display. */
  function Line(m: Message): string
  {
    RoleLabel(m.role) + ": " + Preview(m.content) + "\n"
  }

  /**
   * A rendered line starts with the speaker label and `": "`, ends with a
   * newline, stays within the preview bound, and shows a short content verbatim.
   */
  lemma LineShows(m: Message)
    ensures var r, speaker := Line(m), RoleLabel(m.role);
      && speaker + ": " <= r
      && r[|r| - 1] == '\n'
      && |r| <= |speaker| + PreviewLimit + 6
      && (|m.content| <= PreviewLimit ==> r[|speaker| + 2..|r| - 1] == m.content)
  {
  }

  /** The rendered lines of `msgs`, one per record, in order. */
  function Lines(msgs: seq<Message>): (ls: seq<string>)
    ensures |ls| == |msgs|
    ensures forall i :: 0 <= i < |msgs| ==> ls[i] == Line(msgs[i])
  {
    if msgs == [] then [] else Lines(msgs[..|msgs| - 1]) + [Line(msgs[|msgs| - 1])]
  }

  /** `get_display`: the empty-history text, or the header and one line per newest record. */
  function Display(msgs: seq<Message>): (d: string)
    ensures msgs == [] <==> d == Texts.NoHistory
    ensures msgs != [] ==> Texts.HistoryHeader <= d
  {
    if msgs == [] then Texts.NoHistory
    else Texts.HistoryHeader + Concat(Lines(Newest(msgs, DisplayWindow)))
  }

  /** Records older than the newest `DisplayWindow` do not change the display. */
  lemma DisplayOnlyNewest(msgs: seq<Message>)
    ensures Display(msgs) == Display(Newest(msgs, DisplayWindow))
  {
    var w := Newest(msgs, DisplayWindow);
    assert Newest(w, DisplayWindow) == w;
  }

  /**
   * A non-empty history renders as the header followed by exactly
   * `min(10, n)` lines, the i-th of them rendering the i-th of the newest
   * `min(10, n)` records.
   */
  lemma DisplayShowsNewest(msgs: seq<Message>)
    requires msgs != []
    ensures var ls := Lines(Newest(msgs, DisplayWindow));
      && |ls| == Min(DisplayWindow, |msgs|)
      && Display(msgs) == Texts.HistoryHeader + Concat(ls)
      && forall i :: 0 <= i < |ls| ==>
           ls[i] == RoleLabel(msgs[|msgs| - |ls| + i].role) + ": "
                    + Preview(msgs[|msgs| - |ls| + i].content) + "\n"
  {
    var w := Newest(msgs, DisplayWindow);
    assert forall i :: 0 <= i < |w| ==> w[i] == msgs[|msgs| - |w| + i];
  }

  /** The content of the history file of `userId`, or `None` when no file exists. */
  function FileOf(files: map<int, StoredFile>, userId: int): Option<StoredFile>
  {
    if userId in files then Some(files[userId]) else None
  }

  /**
   * `_load_history`: the stored messages, or an empty history when there is no
   * file, the file is unreadable or the record has no `messages` key.
   */
  function Loaded(file: Option<StoredFile>): (h: seq<Message>)
    ensures file.Some? && file.value.Record? && file.value.messages.Some? ==> h == file.value.messages.value
    ensures file.None? || file.value.Unreadable? || file.value.messages.None? ==> h == []
  {
    match file
    case Some(Record(Some(ms))) => ms
    case _ => []
  }

  /** The directory of per-user history files, keyed by user id. */
  class Store {
    var files: map<int, StoredFile>

    constructor (files: map<int, StoredFile>)
      ensures this.files == files
    {
      this.files := files;
    }
  }

  class ConversationHistory {
    const userId: int
    var messages: seq<Message>

    /** A history for `userId`, loaded from its file in `store`. */
    constructor (userId: int, store: Store)
      ensures this.userId == userId
      ensures messages == Loaded(FileOf(store.files, userId))
    {
      this.userId := userId;
      messages := Loaded(FileOf(store.files, userId));
    }

    /** `add_message`: append a record, then drop the oldest ones beyond the cap. */
    method AddMessage(role: string, content: string, now: Timestamp)
      modifies this
      ensures messages == Added(old(messages), Message(role, content, now))
      ensures |messages| <= MaxHistoryMessages
      ensures messages[|messages| - 1] == Message(role, content, now)
    {
      messages := messages + [Message(role, content, now)];
      if |messages| > MaxHistoryMessages {
        messages := messages[|messages| - MaxHistoryMessages..];
      }
    }

    /** `clear`: empty the history; its display is then the empty-history text. */
    method Clear()
      modifies this
      ensures messages == []
      ensures Display(messages) == Texts.NoHistory
    {
      messages := [];
    }

    /** `get_context`. */
    function GetContext(): (ctx: seq<ContextEntry>)
      reads this
      ensures |ctx| == |messages|
      ensures forall i :: 0 <= i < |messages| ==>
                ctx[i].role == messages[i].role && ctx[i].content == messages[i].content
    {
      ContextProjects(messages);
      Context(messages)
    }

    /** `get_display`, building the text line by line as the source does. */
    method GetDisplay() returns (display: string)
      ensures display == Display(messages)
    {
      if messages == [] {
        return Texts.NoHistory;
      }
      display := Texts.HistoryHeader;
      var window := Newest(messages, DisplayWindow);
      var i := 0;
      while i < |window|
        invariant 0 <= i <= |window|
        invariant display == Texts.HistoryHeader + Concat(Lines(window)[..i])
      {
        var msg := window[i];
        var role := RoleLabel(msg.role);
        var content := Preview(msg.content);
        var line := role + ": " + content + "\n";
        assert line == Lines(window)[i];
        ConcatSnocAfter(Texts.HistoryHeader, Lines(window), i);
        display := display + line;
        i := i + 1;
      }
      assert Lines(window)[..i] == Lines(window);
    }

    /** `save`: write the whole history to this user's file; reading it back yields the same history. */
    method Save(store: Store)
      modifies store
      ensures store.files == old(store.files)[userId := Record(Some(messages))]
      ensures Loaded(FileOf(store.files, userId)) == messages
    {
      store.files := store.files[userId := Record(Some(messages))];
    }
  }
}
