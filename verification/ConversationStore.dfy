/**
 * The event-sourced store and those who listen to it (src/conversation/event-sourced-store.ts). A
 * directory is a map from conversation id to file; an operation is atomic.
 */
module ConversationStore {
  import opened Prelude
  import opened ConversationTypes
  import opened ConversationFiles
  import opened ConversationListing
  import opened Fork
  import R = Replay
  import S = ReplayStability
  import WF = ReplayWellFormed

  type Dir = map<string, File>

  /** One `onMutate` call: the conversation it names, and the file a reader finds at that moment. */
  datatype Change = Change(id: string, content: Option<File>)

  function Apply(dir: Dir, c: Change): Dir {
    match c.content
    case Some(file) => dir[c.id := file]
    case None => dir - {c.id}
  }

  /** A directory after a run of announced writes. */
  function FilesFrom(dir: Dir, changes: seq<Change>): Dir
    decreases |changes|
  {
    if changes == [] then dir else FilesFrom(Apply(dir, changes[0]), changes[1..])
  }

  lemma {:induction false} FilesFromOne(dir: Dir, changes: seq<Change>, c: Change)
    ensures FilesFrom(dir, changes + [c]) == Apply(FilesFrom(dir, changes), c)
    decreases |changes|
  {
    if changes == [] {
      assert [c][1..] == [];
    } else {
      assert (changes + [c])[1..] == changes[1..] + [c];
      FilesFromOne(Apply(dir, changes[0]), changes[1..], c);
    }
  }

  // ------------------------------------------------------------------ contents

  function EventLines(events: seq<Event>): seq<Line> {
    if events == [] then [] else [EventLine(events[0])] + EventLines(events[1..])
  }

  lemma {:induction false} EventsOfLines(events: seq<Event>)
    ensures EventsIn(EventLines(events)) == events
  {
    if events != [] {
      EventsOfLines(events[1..]);
    }
  }

  function NewFile(id: string, now: int, owner: string, model: string): File {
    [HeaderLine(Header(id, now, Some(now), Some(owner), Some(model), None))]
  }

  /** The model of the last assistant message that carries one. */
  function ForkLastModel(ms: seq<Message>): Option<string> {
    if ms == [] then None
    else
      var last := ms[|ms| - 1];
      if last.role == Assistant && last.metadata.model.GetOr("") != "" then last.metadata.model
      else ForkLastModel(ms[..|ms| - 1])
  }

  method FindForkLastModel(messages: seq<Message>) returns (model: Option<string>)
    ensures model == ForkLastModel(messages)
  {
    model := None;
    for i := 0 to |messages|
      invariant model == ForkLastModel(messages[..i])
    {
      var msg := messages[i];
      assert messages[..i + 1][..i] == messages[..i];
      if msg.role == Assistant && msg.metadata.model.GetOr("") != "" {
        model := msg.metadata.model;
      }
    }
    assert messages[..|messages|] == messages;
  }

  function ForkedFile(id: string, now: int, owner: string, model: string, copied: seq<Message>): File
    requires copied != []
  {
    var last := copied[|copied| - 1];
    [HeaderLine(Header(id, now, Some(last.timestamp), Some(owner), Some(model), ForkLastModel(copied)))] +
    EventLines(ForkEvents(copied, 0))
  }

  /** The history a file holds, every turn verbatim. */
  function FullHistory(w: R.Wording, file: File): seq<Message>
    requires file != []
  {
    R.Reconstruct(w, EventsIn(file[1..]), true)
  }

  /** An answer, the error of a file with no owner or no model, or that of a line that cannot be applied. */
  datatype Reply<+T> = Reply(value: T) | CorruptedError | UnreadableError

  predicate Fails(l: Loaded) {
    l.Corrupted? || l.Unreadable?
  }

  function ErrorOf<T>(l: Loaded): Reply<T>
    requires Fails(l)
  {
    if l.Corrupted? then CorruptedError else UnreadableError
  }

  // ------------------------------------------------------------------ the store

  predicate Lists(price: Pricing, dir: Dir, id: string) {
    id in dir && SummaryOf(price, dir[id]).Some?
  }

  /** Where a file has a header, it names its own file. */
  ghost predicate Named(dir: Dir) {
    forall id :: id in dir && dir[id] != [] && dir[id][0].HeaderLine? ==> dir[id][0].header.id == id
  }

  predicate HasId(entries: seq<Summary>, id: string) {
    exists i :: 0 <= i < |entries| && entries[i].id == id
  }

  class EventSourcedConversationStore {
    const price: Pricing
    const w: R.Wording
    const index: ConversationIndex
    const start: Dir
    var files: Dir
    var changes: seq<Change>

    /**
     * Every write since the store was opened was announced, naming its conversation; and a populated
     * index lists exactly the conversations that can be listed.
     */
    ghost predicate Valid()
      reads this, index
    {
      && files == FilesFrom(start, changes)
      && Named(files)
      && UniqueIds(index.entries)
      && (index.populated ==> forall id :: HasId(index.entries, id) <==> Lists(price, files, id))
    }

    /** Opens a store over a directory that may already hold conversations. */
    constructor (price: Pricing, w: R.Wording, start: Dir)
      requires Named(start)
      ensures Valid() && fresh(index) && !index.populated
      ensures files == start && changes == [] && this.start == start && this.price == price && this.w == w
    {
      this.price, this.w, this.start := price, w, start;
      index := new ConversationIndex();
      files, changes := start, [];
    }

    method Create(id: string, now: int, owner: string, model: string)
      requires Valid()
      modifies this, index
      ensures Valid() && !index.populated
      ensures files == old(files)[id := NewFile(id, now, owner, model)]
      ensures changes == old(changes) + [Change(id, Some(NewFile(id, now, owner, model)))]
    {
      files := files[id := NewFile(id, now, owner, model)];
      index.Invalidate();
      changes := changes + [Change(id, Some(files[id]))];
      FilesFromOne(start, old(changes), Change(id, Some(files[id])));
    }

    /** Appends one event line; a missing file is created without a header. */
    method AppendEvent(id: string, event: Event)
      requires Valid()
      modifies this
      ensures Valid()
      ensures files == old(files)[id := (if id in old(files) then old(files)[id] else []) + [EventLine(event)]]
      ensures changes == old(changes) + [Change(id, Some(files[id]))]
    {
      var before := if id in files then files[id] else [];
      files := files[id := before + [EventLine(event)]];
      changes := changes + [Change(id, Some(files[id]))];
      FilesFromOne(start, old(changes), Change(id, Some(files[id])));
      if id in old(files) {
        AppendKeepsListing(price, before, event);
      }
      assert forall k :: k != id ==> (Lists(price, files, k) <==> Lists(price, old(files), k));
    }

    /** Appends a message: a user message as one event, an assistant message as a synthetic run. */
    method Append(id: string, message: Message, hasMetadata: bool, runId: string)
      requires Valid()
      modifies this
      ensures Valid()
      ensures message.role == User ==>
                var userId := if message.userId == Some("") then None else message.userId;
                && files == old(files)[id := FileAt(old(files), id) +
                     [EventLine(UserMessage(message.timestamp, message.content, userId, None))]]
                && changes == old(changes) + [Change(id, Some(files[id]))]
      ensures message.role == Assistant && hasMetadata ==>
                var ts, meta := message.timestamp, message.metadata;
                var model := meta.model.GetOr("unknown");
                var finish := meta.finishReason.GetOr(if HasToolUse(message) then ToolCalls else Stop);
                var start := EventLine(RunStart(ts, runId, model));
                var response := EventLine(LlmResponse(ts, runId, model, message.content,
                                                      meta.usage.GetOr(NO_USAGE), meta.llmMs.GetOr(0), finish));
                var done := EventLine(RunDone(ts, runId, "complete"));
                Announced(old(files), files, old(changes), changes, id, [start, response, done])
      ensures message.role == Tool || (message.role == Assistant && !hasMetadata) ==>
                files == old(files) && changes == old(changes)
    {
      hide FilesFrom, Lists, Load;
      if message.role == User {
        AppendEvent(id, ForkUserEvent(message));
      } else if message.role == Assistant && hasMetadata {
        AppendRun(id, ForkAssistantEvents(message, runId));
      }
    }

    /** Appends the start, the response and the end of a synthetic run, one line at a time. */
    method AppendRun(id: string, events: seq<Event>)
      requires Valid() && |events| == 3
      modifies this
      ensures Valid()
      ensures Announced(old(files), files, old(changes), changes, id,
                        [EventLine(events[0]), EventLine(events[1]), EventLine(events[2])])
    {
      hide FilesFrom, Lists, Load;
      AppendEvent(id, events[0]);
      AppendEvent(id, events[1]);
      AppendEvent(id, events[2]);
      var file, lines := FileAt(old(files), id), [EventLine(events[0]), EventLine(events[1]), EventLine(events[2])];
      assert file + lines[..1] == file + [lines[0]];
      assert file + lines[..2] == file + [lines[0]] + [lines[1]];
      assert file + lines[..3] == file + lines == file + [lines[0]] + [lines[1]] + [lines[2]];
    }

    method Delete(id: string, access: Option<string>) returns (r: Reply<bool>)
      requires Valid()
      modifies this, index
      ensures Valid()
      ensures r == if access.Some? && Fails(Load(FileOf(old(files), id))) then ErrorOf(Load(FileOf(old(files), id)))
                   else Reply(id in old(files) && MayAccess(old(files), id, access))
      ensures if r == Reply(true) then files == old(files) - {id} && changes == old(changes) + [Change(id, None)]
              else files == old(files) && changes == old(changes)
    {
      if access.Some? {
        match Load(FileOf(files, id))
        case Missing => return Reply(false);
        case Corrupted => return CorruptedError;
        case Unreadable => return UnreadableError;
        case Found(conversation) =>
          if conversation.ownerId != access.value {
            return Reply(false);
          }
      }
      if id !in files {
        return Reply(false);
      }
      files := files - {id};
      RemovedIds(index.entries, id);
      index.Remove(id);
      changes := changes + [Change(id, None)];
      FilesFromOne(start, old(changes), Change(id, None));
      assert forall k :: k != id ==> (Lists(price, files, k) <==> Lists(price, old(files), k));
      return Reply(true);
    }

    /** Sets the title; the title lives in the log, as an event. */
    method Update(id: string, title: Option<string>, now: int, access: Option<string>) returns (r: Reply<Loaded>)
      requires Valid()
      modifies this, index
      ensures Valid()
      ensures var reached := id in old(files) && MayAccess(old(files), id, access);
              && files == (if reached && title.Some?
                           then old(files)[id := Extended(old(files), id, [MetadataTitle(now, title)])]
                           else old(files))
              && changes == old(changes) + (if reached && title.Some? then [Change(id, Some(files[id]))] else [])
              && (r == if access.Some? && Fails(Load(FileOf(old(files), id))) then ErrorOf(Load(FileOf(old(files), id)))
                       else if !reached then Reply(Missing)
                       else if Fails(Load(FileOf(files, id))) then ErrorOf(Load(FileOf(files, id)))
                       else Reply(Load(FileOf(files, id))))
              && (reached ==> !index.populated)
    {
      if access.Some? {
        match Load(FileOf(files, id))
        case Missing => return Reply(Missing);
        case Corrupted => return CorruptedError;
        case Unreadable => return UnreadableError;
        case Found(conversation) =>
          if conversation.ownerId != access.value {
            return Reply(Missing);
          }
      }
      if id !in files {
        return Reply(Missing);
      }
      if title.Some? {
        AppendEvent(id, MetadataTitle(now, title));
        OneLine(MetadataTitle(now, title));
      }
      index.Invalidate();
      var loaded := Load(FileOf(files, id));
      if Fails(loaded) {
        return ErrorOf(loaded);
      }
      return Reply(loaded);
    }

    /**
     * Copies a conversation's full history, up to `atMessage`, into a new conversation of the same
     * owner and model. Two writes, two announcements: the new file, then its messages.
     */
    method Fork(id: string, atMessage: Option<int>, access: Option<string>, newId: string, now: int)
      returns (r: Reply<bool>)
      requires Valid()
      modifies this, index
      ensures Valid()
      ensures var source := Load(FileOf(old(files), id));
              && (Fails(source) ==> r == ErrorOf(source))
              && (!Fails(source) ==> r == Reply(source.Found? && MayAccess(old(files), id, access)))
      ensures r != Reply(true) ==> files == old(files) && changes == old(changes)
      ensures r == Reply(true) ==> !index.populated
      ensures r == Reply(true) ==>
                && id in old(files) && old(files)[id] != []
                && var c, copied := Load(FileOf(old(files), id)).conversation, CopiedBy(w, old(files)[id], atMessage);
                   var first := Change(newId, Some(NewFile(newId, now, c.ownerId, c.model)));
                   var writes := if copied == [] then [first]
                                 else [first, Change(newId, Some(ForkedFile(newId, now, c.ownerId, c.model, copied)))];
                   && changes == old(changes) + writes
                   && files == old(files)[newId := writes[|writes| - 1].content.value]
    {
      hide CopiedBy, NewFile, ForkedFile, Load, FilesFrom, Lists;
      FoundHasFile(files, id);
      var source := Load(FileOf(files, id));
      match source
      case Missing => return Reply(false);
      case Corrupted => return CorruptedError;
      case Unreadable => return UnreadableError;
      case Found(conversation) =>
        if access.Some? && conversation.ownerId != access.value {
          return Reply(false);
        }
        var messagesToCopy := CopiedBy(w, files[id], atMessage);
        Create(newId, now, conversation.ownerId, conversation.model);
        if messagesToCopy != [] {
          WriteForkedMessages(newId, now, conversation, messagesToCopy);
        }
        return Reply(true);
    }

    /** Replaces a freshly forked conversation's file by one that holds the copied messages. */
    method WriteForkedMessages(newId: string, now: int, source: Conversation, messagesToCopy: seq<Message>)
      requires Valid() && messagesToCopy != []
      modifies this, index
      ensures Valid() && !index.populated
      ensures var file := ForkedFile(newId, now, source.ownerId, source.model, messagesToCopy);
              && files == old(files)[newId := file]
              && changes == old(changes) + [Change(newId, Some(file))]
    {
      var eventLines := MessagesToForkEventLines(messagesToCopy);
      var last := messagesToCopy[|messagesToCopy| - 1];
      var lastModel := FindForkLastModel(messagesToCopy);
      var header := Header(newId, now, Some(last.timestamp), Some(source.ownerId), Some(source.model), lastModel);
      files := files[newId := [HeaderLine(header)] + EventLines(eventLines)];
      index.Invalidate();
      changes := changes + [Change(newId, Some(files[newId]))];
      FilesFromOne(start, old(changes), Change(newId, Some(files[newId])));
    }

    /** One page of the directory, read in some order when the index is not populated. */
    method List(order: seq<string>, keep: Summary -> bool, key: Key, cursor: Option<string>, limit: nat)
      returns (r: PageResult)
      requires Valid()
      requires forall id :: id in order <==> id in files
      modifies index
      ensures Valid() && index.populated
      ensures index.entries == if old(index.populated) then old(index.entries)
          else IndexOf(price, FilesIn(files, order))
      ensures r == PageOf(Listed(keep, key, index.entries), cursor, limit)
    {
      IndexUnique(price, FilesIn(files, order));
      IndexLists(price, files, order);
      index.Populate(price, FilesIn(files, order));
      r := index.List(keep, key, cursor, limit);
    }
  }

  /** The lines of a file, none of a missing one. */
  function FileAt(dir: Dir, id: string): File {
    if id in dir then dir[id] else []
  }

  /** `lines` were appended to one file one at a time, each write announced with the file as it then was. */
  ghost predicate Announced(
    before: Dir, after: Dir, heard: seq<Change>, changes: seq<Change>, id: string, lines: seq<Line>)
  {
    && after == before[id := FileAt(before, id) + lines]
    && |changes| == |heard| + |lines| && heard <= changes
    && forall i :: |heard| <= i < |changes| ==>
         changes[i] == Change(id, Some(FileAt(before, id) + lines[..i - |heard| + 1]))
  }

  /** A file with events appended; a missing file is begun. */
  function Extended(dir: Dir, id: string, events: seq<Event>): File {
    (if id in dir then dir[id] else []) + EventLines(events)
  }

  lemma {:induction false} OneLine(e: Event)
    ensures EventLines([e]) == [EventLine(e)]
  {
    assert [e][1..] == [];
    assert EventLines([e]) == [EventLine(e)] + EventLines([e][1..]);
  }

  /** The messages a fork copies. */
  function CopiedBy(w: R.Wording, file: File, atMessage: Option<int>): seq<Message>
    requires file != []
  {
    var all := FullHistory(w, file);
    match atMessage
    case None => all
    case Some(n) => all[..SliceEnd(|all|, n)]
  }

  /** Where `slice(0, n)` ends; a negative n counts from the end. */
  function SliceEnd(length: nat, n: int): nat {
    if n < 0 then Max(0, length + n) else Min(n, length)
  }

  function FilesIn(dir: Dir, order: seq<string>): seq<File>
    requires forall id :: id in order ==> id in dir
  {
    if order == [] then [] else FilesIn(dir, order[..|order| - 1]) + [dir[order[|order| - 1]]]
  }

  /** A fresh index lists exactly the conversations that can be listed. */
  lemma {:induction false} IndexLists(price: Pricing, dir: Dir, order: seq<string>)
    requires Named(dir) && forall id :: id in order ==> id in dir
    ensures forall id :: HasId(IndexOf(price, FilesIn(dir, order)), id) <==> id in order && Lists(price, dir, id)
  {
    if order != [] {
      var n := |order| - 1;
      var last := order[n];
      IndexLists(price, dir, order[..n]);
      assert order == order[..n] + [last];
      var files := FilesIn(dir, order);
      assert files[..|files| - 1] == FilesIn(dir, order[..n]) && files[|files| - 1] == dir[last];
      var before := IndexOf(price, FilesIn(dir, order[..n]));
      if Lists(price, dir, last) {
        PutIds(before, SummaryOf(price, dir[last]).value);
      }
    }
  }

  lemma {:induction false} PutIds(entries: seq<Summary>, s: Summary)
    ensures forall id :: HasId(Put(entries, s), id) <==> id == s.id || HasId(entries, id)
  {
    var put := Put(entries, s);
    forall id ensures HasId(put, id) <==> id == s.id || HasId(entries, id) {
      if HasId(entries, id) {
        var i :| 0 <= i < |entries| && entries[i].id == id;
        assert put[i].id == id;
      }
      if id == s.id {
        var at := FindId(entries, s.id);
        assert put[if at.Some? then at.value else |entries|].id == id;
      }
    }
  }

  function FileOf(dir: Dir, id: string): Option<File> {
    if id in dir then Some(dir[id]) else None
  }

  lemma {:induction false} FoundHasFile(dir: Dir, id: string)
    ensures Load(FileOf(dir, id)).Found? ==> id in dir && dir[id] != []
  {
  }

  /** A created conversation loads with its owner and its model, dated when it was made, untitled and unused. */
  lemma {:induction false} CreatedLoads(id: string, now: int, owner: string, model: string)
    requires owner != "" && model != ""
    ensures Load(Some(NewFile(id, now, owner, model))) ==
            Found(Conversation(id, now, Some(now), None, None, owner, model))
  {
    var file := NewFile(id, now, owner, model);
    assert file[1..] == [];
  }

  /** A forked conversation loads under its own id with the owner and the model it was forked from. */
  lemma {:induction false} ForkLoads(id: string, now: int, owner: string, model: string, copied: seq<Message>)
    requires owner != "" && model != "" && copied != []
    ensures var loaded := Load(Some(ForkedFile(id, now, owner, model, copied)));
            && loaded.Found?
            && var c := loaded.conversation;
               (c.id, c.createdAt, c.title, c.ownerId, c.model) == (id, now, None, owner, model)
  {
    hide ForkLastModel, UpdatedAt;
    var file, events := ForkedFile(id, now, owner, model, copied), ForkEvents(copied, 0);
    assert file[1..] == EventLines(events);
    EventsOfLines(events);
    LinesApply(events);
    ForkedUntitled(copied, 0);
    assert LastTitle(events) == None by { NoTitle(events); }
  }

  lemma {:induction false} LinesApply(events: seq<Event>)
    ensures Applicable(EventLines(events))
  {
    if events != [] {
      LinesApply(events[1..]);
    }
  }

  lemma {:induction false} ForkedUntitled(ms: seq<Message>, n: nat)
    ensures forall i :: 0 <= i < |ForkEvents(ms, n)| ==> !ForkEvents(ms, n)[i].MetadataTitle?
  {
    if ms != [] {
      ForkedUntitled(ms[1..], if ms[0].role == Assistant then n + 1 else n);
    }
  }

  lemma {:induction false} NoTitle(events: seq<Event>)
    requires forall i :: 0 <= i < |events| ==> !events[i].MetadataTitle?
    ensures LastTitle(events) == None
  {
    if events != [] {
      NoTitle(events[..|events| - 1]);
    }
  }

  /** The messages a fork copies are a head of the full history: all, as many as asked for, or all but the last. */
  lemma {:induction false} CopiedIsHead(w: R.Wording, file: File, atMessage: Option<int>)
    requires file != []
    ensures var all, copied := FullHistory(w, file), CopiedBy(w, file, atMessage);
            && copied <= all
            && (atMessage.None? ==> copied == all)
            && (atMessage.Some? && atMessage.value >= 0 ==>
                  |copied| == atMessage.value || (atMessage.value > |all| && copied == all))
            && (atMessage.Some? && atMessage.value < 0 ==>
                  |copied| == |all| + atMessage.value || (|all| + atMessage.value < 0 && copied == []))
  {
    hide FullHistory;
  }

  /** The caller owns the conversation, or no caller was named. */
  predicate MayAccess(dir: Dir, id: string, access: Option<string>) {
    access.None? ||
    match Load(FileOf(dir, id))
    case Found(c) => c.ownerId == access.value
    case _ => false
  }

  /** A caller that is named reaches a conversation exactly when it loads and its header names the caller as owner. */
  lemma {:induction false} OnlyOwnerReaches(dir: Dir, id: string, user: string)
    ensures MayAccess(dir, id, Some(user)) <==>
              && id in dir && Load(Some(dir[id])).Found?
              && dir[id][0].HeaderLine? && dir[id][0].header.ownerId == Some(user)
    ensures MayAccess(dir, id, None)
  {
  }

  /** An event appended to a file changes its totals, never whether it is listed. */
  lemma {:induction false} AppendKeepsListing(price: Pricing, file: File, e: Event)
    ensures SummaryOf(price, file + [EventLine(e)]).Some? <==> SummaryOf(price, file).Some?
  {
  }

  lemma {:induction false} RemovedIds(entries: seq<Summary>, id: string)
    ensures var rest := Matching((s: Summary) => s.id != id, entries);
            && (UniqueIds(entries) ==> UniqueIds(rest))
            && forall k :: HasId(rest, k) <==> k != id && HasId(entries, k)
  {
    var keep := (s: Summary) => s.id != id;
    var rest := Matching(keep, entries);
    MatchingMembers(keep, entries);
    forall k ensures HasId(rest, k) <==> k != id && HasId(entries, k) {
      if HasId(rest, k) {
        var i :| 0 <= i < |rest| && rest[i].id == k;
        assert rest[i] in entries;
      }
      if k != id && HasId(entries, k) {
        var i :| 0 <= i < |entries| && entries[i].id == k;
        assert entries[i] in rest;
      }
    }
  }

  // ------------------------------------------------------------------ what an appended message reloads to

  lemma {:induction false} EventsWith(file: File, lines: seq<Line>)
    requires file != []
    ensures EventsIn((file + lines)[1..]) == EventsIn(file[1..]) + EventsIn(lines)
  {
    assert (file + lines)[1..] == file[1..] + lines;
    EventsInConcat(file[1..], lines);
  }

  /** A whole turn appended to a log adds its messages to the full history, after a marker if one belongs there. */
  lemma {:induction false} TurnAdds(w: R.Wording, log: seq<Event>, turn: seq<Event>)
    requires turn != [] && R.IsTurnStart(turn[0]) && S.NoCompaction(turn)
    ensures var before, added := R.Reconstruct(w, log, true), R.Build(w, turn);
            R.Reconstruct(w, log + turn, true) ==
              if before == [] then R.Alternate(w, added)
              else before + R.AlternateAfter(w, before[|before| - 1], added)
  {
    hide R.Build, R.Replayed, R.Alternate;
    S.ReplayedGrows(w, log, turn, None);
    TailOfUncompacted(turn);
    var shown, added := R.Replayed(w, log, None), R.Build(w, turn);
    if shown == [] {
      assert shown + added == added;
    } else {
      S.AlternateConcat(w, shown, added);
    }
    LastStays(w, shown);
  }

  /** The pass ends in the last message it is given. */
  lemma {:induction false} LastStays(w: R.Wording, ms: seq<Message>)
    ensures R.Alternate(w, ms) == [] <==> ms == []
    ensures ms != [] ==> R.Alternate(w, ms)[|R.Alternate(w, ms)| - 1] == ms[|ms| - 1]
  {
    if |ms| > 1 {
      var front := ms[..|ms| - 1];
      assert ms == front + [ms[|ms| - 1]];
      S.AlternateConcat(w, front, [ms[|ms| - 1]]);
    }
  }

  lemma {:induction false} OneAdded(w: R.Wording, before: seq<Message>, m: Message)
    ensures R.Alternate(w, [m]) == [m]
    ensures before != [] ==>
              var added := R.AlternateAfter(w, before[|before| - 1], [m]);
              && 1 <= |added| <= 2 && added[|added| - 1] == m
              && UserContents(before + added) == UserContents(before) + UserContents([m])
              && (m.role == Assistant ==> added == [m])
    ensures UserContents([m]) == if m.role == User then [m.content] else []
    ensures UserContents([]) == []
  {
    assert [m][1..] == [];
    if before != [] {
      var added := R.AlternateAfter(w, before[|before| - 1], [m]);
      AlternateAfterContents(w, before[|before| - 1], [m]);
      UserContentsConcat(before, added);
    }
  }

  /**
   * The event of a user message appended to a conversation is the last thing its history says: all that was
   * there stays, what the user said gains this message, and nothing else but a marker comes between.
   */
  lemma {:induction false} UserAppendReloads(
    w: R.Wording, file: File, ts: int, content: seq<Part>, userId: Option<string>)
    requires file != []
    ensures var before := FullHistory(w, file);
            var after := FullHistory(w, file + [EventLine(UserMessage(ts, content, userId, None))]);
            && before < after && |after| <= |before| + 2
            && UserContents(after) == UserContents(before) + [R.ToUserContent(content)]
            && var last := after[|after| - 1];
               && last.role == User && last.content == R.ToUserContent(content) && last.timestamp == ts
               && !IsOverlay(last)
  {
    hide R.Build, R.Reconstruct, R.AlternateAfter, R.Alternate, UserContents, R.ToUserContent, EventsIn;
    var e := UserMessage(ts, content, userId, None);
    EventsWith(file, [EventLine(e)]);
    EventsOfLines([e]);
    OneLine(e);
    TurnAdds(w, EventsIn(file[1..]), [e]);
    OneUser(w, e);
    OneAdded(w, FullHistory(w, file), R.BuildUserMessage(e));
  }

  lemma {:induction false} OneUser(w: R.Wording, e: UserMessageEvent)
    ensures R.Build(w, [e]) == [R.BuildUserMessage(e)]
  {
    assert [e][1..] == [];
    assert R.Build(w, [e]) == R.StepMessages(w, [e]) + R.Build(w, [e][1..]);
  }

  /** The run of an appended answer, in prompt form and without calls, is read back as one message: that answer. */
  lemma {:induction false} AnswerAppendReloads(
    w: R.Wording, file: File, m: Message, runId: string, model: string, usage: Usage, llmMs: nat, finish: FinishReason)
    requires file != [] && m.role == Assistant && WF.Settled(m.content) && CallIds(m.content) == []
    ensures var lines := [EventLine(RunStart(m.timestamp, runId, model)),
                          EventLine(LlmResponse(m.timestamp, runId, model, m.content, usage, llmMs, finish)),
                          EventLine(RunDone(m.timestamp, runId, "complete"))];
            var before, after := FullHistory(w, file), FullHistory(w, file + lines);
            |after| == |before| + 1 && before < after && SameView(after[|before|], m)
  {
    hide R.Build, R.Reconstruct, R.AlternateAfter, WF.Settled, ForkedAnswer, UserContents, EventsIn;
    var answer := m.(metadata := NO_METADATA.(model := Some(model), usage := Some(usage), llmMs := Some(llmMs),
                                              finishReason := Some(finish)));
    var turn := ForkAssistantEvents(answer, runId);
    EventsOfLines(turn);
    ThreeLines(turn);
    EventsWith(file, EventLines(turn));
    ForkedSpan(w, answer, runId);
    AnswerRoundTrip(w, answer, runId);
    TurnAdds(w, EventsIn(file[1..]), turn);
    OneAdded(w, FullHistory(w, file), ForkedAnswer(w, answer, runId)[0]);
    assert R.Build(w, turn) == [ForkedAnswer(w, answer, runId)[0]];
  }

  lemma {:induction false} ThreeLines(events: seq<Event>)
    requires |events| == 3
    ensures EventLines(events) == [EventLine(events[0]), EventLine(events[1]), EventLine(events[2])]
  {
    assert events[1..][1..] == [events[2]];
    OneLine(events[2]);
    assert EventLines(events[1..]) == [EventLine(events[1])] + EventLines(events[1..][1..]);
    assert EventLines(events) == [EventLine(events[0])] + EventLines(events[1..]);
  }

  // ------------------------------------------------------------------ those who listen

  /** What a rescan of every file gives. */
  function Rescan(price: Pricing, dir: Dir): map<string, Summary> {
    map id | id in dir && SummaryOf(price, dir[id]).Some? :: SummaryOf(price, dir[id]).value
  }

  /** A cache of summaries and the conversations named since it was last read. */
  datatype Listener = Listener(cache: map<string, Summary>, named: set<string>)

  datatype Step = Heard(change: Change) | Unheard(change: Change) | Refreshed

  /** The cache with the named entries, and no others, read again. */
  function Refresh(price: Pricing, dir: Dir, l: Listener): Listener {
    var scan := Rescan(price, dir);
    Listener(map id | id in l.cache.Keys + scan.Keys && (if id in l.named then id in scan else id in l.cache)
               :: if id in l.named then scan[id] else l.cache[id],
             {})
  }

  function DirAfter(dir: Dir, step: Step): Dir {
    if step.Refreshed? then dir else Apply(dir, step.change)
  }

  function ListenerAfter(price: Pricing, dir: Dir, l: Listener, step: Step): Listener {
    match step
    case Heard(c) => l.(named := l.named + {c.id})
    case Unheard(_) => l
    case Refreshed => Refresh(price, dir, l)
  }

  /** The directory and the listener after a run of writes and reads. */
  function Run(price: Pricing, dir: Dir, l: Listener, steps: seq<Step>): (Dir, Listener)
    decreases |steps|
  {
    if steps == [] then (dir, l)
    else Run(price, DirAfter(dir, steps[0]), ListenerAfter(price, dir, l, steps[0]), steps[1..])
  }

  /** Where no change is pending, the cache agrees with the files. */
  ghost predicate InSync(price: Pricing, dir: Dir, l: Listener) {
    forall id :: id !in l.named ==> SameEntry(l.cache, Rescan(price, dir), id)
  }

  predicate SameEntry(a: map<string, Summary>, b: map<string, Summary>, id: string) {
    (id in a <==> id in b) && (id in a ==> a[id] == b[id])
  }

  lemma {:induction false} RefreshSyncs(price: Pricing, dir: Dir, l: Listener)
    requires InSync(price, dir, l)
    ensures Refresh(price, dir, l).cache == Rescan(price, dir)
  {
    var scan, r := Rescan(price, dir), Refresh(price, dir, l).cache;
    forall id ensures SameEntry(r, scan, id) {
      assert id !in l.named ==> SameEntry(l.cache, scan, id);
    }
    assert forall id :: id in r <==> id in scan by {
      forall id ensures id in r <==> id in scan {
        assert SameEntry(r, scan, id);
      }
    }
    forall id | id in r ensures r[id] == scan[id] {
      assert SameEntry(r, scan, id);
    }
  }

  lemma {:induction false} HeardStaysInSync(price: Pricing, dir: Dir, l: Listener, c: Change)
    requires InSync(price, dir, l)
    ensures InSync(price, Apply(dir, c), l.(named := l.named + {c.id}))
  {
    forall id | id !in l.named + {c.id} ensures SameEntry(l.cache, Rescan(price, Apply(dir, c)), id) {
      assert SameEntry(l.cache, Rescan(price, dir), id);
    }
  }

  /**
   * A cache that re-reads only what was named equals a full rescan: over any run in which every write
   * is announced, with reads anywhere between the writes, the next read finds exactly the files.
   */
  lemma {:induction false} IncrementalIsRescan(price: Pricing, dir: Dir, l: Listener, steps: seq<Step>)
    requires InSync(price, dir, l)
    requires forall i :: 0 <= i < |steps| ==> !steps[i].Unheard?
    ensures var (d, r) := Run(price, dir, l, steps);
            InSync(price, d, r) && Refresh(price, d, r).cache == Rescan(price, d)
    decreases |steps|
  {
    if steps == [] {
      RefreshSyncs(price, dir, l);
    } else {
      if steps[0].Heard? {
        HeardStaysInSync(price, dir, l, steps[0].change);
      } else {
        RefreshSyncs(price, dir, l);
      }
      IncrementalIsRescan(price, DirAfter(dir, steps[0]), ListenerAfter(price, dir, l, steps[0]), steps[1..]);
    }
  }

  function ChangesIn(steps: seq<Step>): seq<Change> {
    if steps == [] then []
    else if steps[0].Refreshed? then ChangesIn(steps[1..])
    else [steps[0].change] + ChangesIn(steps[1..])
  }

  lemma {:induction false} RunFollowsFiles(price: Pricing, dir: Dir, l: Listener, steps: seq<Step>)
    ensures Run(price, dir, l, steps).0 == FilesFrom(dir, ChangesIn(steps))
    decreases |steps|
  {
    if steps != [] {
      RunFollowsFiles(price, DirAfter(dir, steps[0]), ListenerAfter(price, dir, l, steps[0]), steps[1..]);
    }
  }

  /**
   * A listener in sync with the directory a store opened, one that has just scanned it or one that has
   * heard of what it has not read, and that hears each of the store's announcements, reading whenever it
   * likes, holds on its next read exactly what a scan of the store's files gives.
   */
  lemma {:induction false} ListenerMirrorsStore(
    price: Pricing, start: Dir, l: Listener, changes: seq<Change>, steps: seq<Step>)
    requires InSync(price, start, l) && ChangesIn(steps) == changes
    requires forall i :: 0 <= i < |steps| ==> !steps[i].Unheard?
    ensures var (d, r) := Run(price, start, l, steps);
            d == FilesFrom(start, changes) && Refresh(price, d, r).cache == Rescan(price, FilesFrom(start, changes))
  {
    IncrementalIsRescan(price, start, l, steps);
    RunFollowsFiles(price, start, l, steps);
  }

  /** A listener that has just scanned every file is in sync, with nothing to read. */
  lemma {:induction false} ScannedIsInSync(price: Pricing, start: Dir)
    ensures InSync(price, start, Listener(Rescan(price, start), {}))
  {
  }

  function NamedBy(step: Step): Option<string> {
    if step.Refreshed? then None else Some(step.change.id)
  }

  /**
   * Silence is permanent: a write that changes a conversation's entry without naming it leaves the
   * cache wrong about it after every read, until a change that names this very conversation.
   */
  lemma {:induction false} SilentWriteStaysStale(price: Pricing, dir: Dir, l: Listener, id: string, steps: seq<Step>)
    requires id !in l.named && !SameEntry(l.cache, Rescan(price, dir), id)
    requires forall i :: 0 <= i < |steps| ==> NamedBy(steps[i]) != Some(id)
    ensures var (d, r) := Run(price, dir, l, steps);
            && id !in r.named && !SameEntry(r.cache, Rescan(price, d), id)
            && Refresh(price, d, r).cache != Rescan(price, d)
    decreases |steps|
  {
    if steps == [] {
      assert SameEntry(Refresh(price, dir, l).cache, l.cache, id);
      assert !SameEntry(Refresh(price, dir, l).cache, Rescan(price, dir), id);
    } else {
      assert NamedBy(steps[0]) != Some(id);
      var d, r := DirAfter(dir, steps[0]), ListenerAfter(price, dir, l, steps[0]);
      assert SameEntry(Rescan(price, d), Rescan(price, dir), id);
      assert SameEntry(r.cache, l.cache, id);
      SilentWriteStaysStale(price, d, r, id, steps[1..]);
    }
  }

  // ------------------------------------------------------------------ why a fork announces twice

  function Turns(ms: seq<Message>): nat {
    if ms == [] then 0 else (if ms[0].role == Tool then 0 else 1) + Turns(ms[1..])
  }

  lemma {:induction false} AssistantEventsCount(m: Message, runId: string)
    ensures MessageCount(ForkAssistantEvents(m, runId)) == 1
  {
    var events := ForkAssistantEvents(m, runId);
    var last := [events[2]];
    assert last[1..] == [] && events[1..][1..] == last;
    assert MessageCount(last) == 1 + MessageCount(last[1..]) == 1;
    assert MessageCount(events[1..]) == 0 + MessageCount(last);
    assert MessageCount(events) == 0 + MessageCount(events[1..]);
  }

  /** A forked file counts one message for every user and assistant message copied. */
  lemma {:induction false} ForkedCount(ms: seq<Message>, n: nat)
    ensures MessageCount(ForkEvents(ms, n)) == Turns(ms)
  {
    if ms != [] {
      ForkedCount(ms[1..], if ms[0].role == Assistant then n + 1 else n);
      var price: Pricing := (_, _) => 0;
      match ms[0].role
      case User =>
        TotalsConcat(price, [ForkUserEvent(ms[0])], ForkEvents(ms[1..], n));
        TotalsOfOne(price, ForkUserEvent(ms[0]));
      case Assistant =>
        TotalsConcat(price, ForkAssistantEvents(ms[0], ForkRunId(n)), ForkEvents(ms[1..], n + 1));
        AssistantEventsCount(ms[0], ForkRunId(n));
      case Tool =>
    }
  }

  /**
   * The file a fork writes reloads, for the model, to the copied messages in role, content and time
   * exactly when they hold no tool call or result and no two user messages meet.
   */
  lemma {:induction false} ForkedFileReloads(
    w: R.Wording, file: File, atMessage: Option<int>, id: string, now: int, owner: string, model: string)
    requires file != [] && CopiedBy(w, file, atMessage) != []
    ensures var copied := CopiedBy(w, file, atMessage);
            var reloaded := R.Reconstruct(w, EventsIn(ForkedFile(id, now, owner, model, copied)[1..]), false);
            && UserContents(reloaded) == UserContents(copied)
            && (SameViews(reloaded, copied) <==> AllCallFree(copied) && NoAdjacentUsers(copied))
  {
    hide R.Reconstruct, UserContents, SameViews, AllCallFree, NoAdjacentUsers, ForkEvents;
    var copied, log := CopiedBy(w, file, atMessage), EventsIn(file[1..]);
    var all := R.Reconstruct(w, log, true);
    var n: nat := if atMessage.None? then |all| else SliceEnd(|all|, atMessage.value);
    assert copied == all[..n];
    EventsOfLines(ForkEvents(copied, 0));
    assert ForkedFile(id, now, owner, model, copied)[1..] == EventLines(ForkEvents(copied, 0));
    ForkKeepsUserTurns(w, log, n);
    ForkRoundTrip(w, log, n);
  }

  lemma {:induction false} RunStep(price: Pricing, dir: Dir, l: Listener, step: Step, rest: seq<Step>)
    ensures Run(price, dir, l, [step] + rest) ==
        Run(price, DirAfter(dir, step), ListenerAfter(price, dir, l, step), rest)
  {
    assert ([step] + rest)[1..] == rest;
  }

  /**
   * The second announcement of a fork is needed: a listener that read between the two writes and never
   * hears of the second keeps an entry with no messages.
   */
  lemma {:induction false} SecondAnnouncementNeeded(
    price: Pricing, dir: Dir, l: Listener, newId: string, now: int, owner: string, model: string,
    copied: seq<Message>, steps: seq<Step>)
    requires InSync(price, dir, l) && newId != "" && owner != ""
    requires copied != [] && copied[0].role != Tool
    requires forall i :: 0 <= i < |steps| ==> NamedBy(steps[i]) != Some(newId)
    ensures var first := Change(newId, Some(NewFile(newId, now, owner, model)));
            var second := Change(newId, Some(ForkedFile(newId, now, owner, model, copied)));
            var (d, r) := Run(price, dir, l, [Heard(first)] + ([Refreshed] + ([Unheard(second)] + steps)));
            Refresh(price, d, r).cache != Rescan(price, d)
  {
    var first := Change(newId, Some(NewFile(newId, now, owner, model)));
    var second := Change(newId, Some(ForkedFile(newId, now, owner, model, copied)));
    var dir1, l1 := Apply(dir, first), l.(named := l.named + {newId});
    RunStep(price, dir, l, Heard(first), [Refreshed] + ([Unheard(second)] + steps));
    HeardStaysInSync(price, dir, l, first);
    RunStep(price, dir1, l1, Refreshed, [Unheard(second)] + steps);
    RefreshSyncs(price, dir1, l1);
    var l2, dir2 := Refresh(price, dir1, l1), Apply(dir1, second);
    RunStep(price, dir1, l2, Unheard(second), steps);
    ForkChangesEntry(price, newId, now, owner, model, copied);
    assert l2.cache[newId] != Rescan(price, dir2)[newId];
    SilentWriteStaysStale(price, dir2, l2, newId, steps);
  }

  /** So is the first: a fork of nothing writes only once, and unheard it stays unknown. */
  lemma {:induction false} FirstAnnouncementNeeded(
    price: Pricing, dir: Dir, l: Listener, newId: string, now: int, owner: string, model: string, steps: seq<Step>)
    requires InSync(price, dir, l) && newId !in dir && newId !in l.named && newId != "" && owner != ""
    requires forall i :: 0 <= i < |steps| ==> NamedBy(steps[i]) != Some(newId)
    ensures var first := Change(newId, Some(NewFile(newId, now, owner, model)));
            var (d, r) := Run(price, dir, l, [Unheard(first)] + steps);
            Refresh(price, d, r).cache != Rescan(price, d)
  {
    var first := Change(newId, Some(NewFile(newId, now, owner, model)));
    assert SameEntry(l.cache, Rescan(price, dir), newId);
    assert newId in Rescan(price, Apply(dir, first));
    RunStep(price, dir, l, Unheard(first), steps);
    SilentWriteStaysStale(price, Apply(dir, first), l, newId, steps);
  }

  lemma {:induction false} ForkChangesEntry(
    price: Pricing, newId: string, now: int, owner: string, model: string, copied: seq<Message>)
    requires newId != "" && owner != "" && copied != [] && copied[0].role != Tool
    ensures var a := SummaryOf(price, NewFile(newId, now, owner, model));
            var b := SummaryOf(price, ForkedFile(newId, now, owner, model, copied));
            a.Some? && b.Some? && a.value.messageCount == 0 && b.value.messageCount == Turns(copied) > 0
  {
    var file := ForkedFile(newId, now, owner, model, copied);
    EventsOfLines(ForkEvents(copied, 0));
    assert file[1..] == EventLines(ForkEvents(copied, 0));
    ForkedCount(copied, 0);
  }
}
