/**
 * The bulk-collection engine of the bot (bot.py:17-87): a store from chat id
 * to the ordered list of records collected so far, and the three handlers that
 * change it — `/bulk` (bulk_start), the collection filter and handler
 * (collect_bulk_contacts) and `/saved` (bulk_save) — tried in the order the
 * bot registers them, after `/start`.
 *
 * A chat is collecting exactly when it has an entry. Each handler's effect on
 * the store is first stated as a function (BulkStartStep, CollectStep,
 * SaveStep, and Step for the dispatch); the class ContactBot holds the store
 * as a mutable field and its methods do what the handlers do in place,
 * proved equal to those functions. Multi-message sessions are stated with
 * Feed, which runs the dispatch over a list of lines that no command handler
 * takes.
 *
 * Two things the bot takes from its surroundings are inputs here: how the
 * chat library classified the message's command (Command), and whether
 * writing, sending and removing the export file succeeded (Delivery).
 */
module BulkBot {
  import opened Wrappers
  import opened ContactLine
  import opened VCard

  type ChatId = int

  /** The store `bulk_contacts`: a chat has an entry while it is collecting. */
  type Store = map<ChatId, seq<Record>>

  /** Which `commands=` filter of the chat library matched the message, if any. */
  datatype Command = StartCommand | BulkCommand | SavedCommand | NoCommand

  /** What happened to the export: the file was written, sent and removed;
      writing or sending it raised with this message; or it was sent and then
      removing it raised with this message. */
  datatype Delivery = Delivered | Failed(reason: string) | RemoveFailed(reason: string)

  /** The store after a message, the text reply (None when no handler took
      the message) and the file sent to the chat, if one was. */
  datatype Outcome = Outcome(contacts: Store, reply: Option<string>, document: Option<string>)

  const Welcome: string := "Hello"
  const BulkActivated: string := "Bulk mode activated. Send contacts in the format: Name +Number. Use /saved to finish."
  const FormatHint: string := "Please send in the format: Name +Number"
  const NoContacts: string := "No contacts to save. Use /bulk to start adding contacts."
  const AllSaved: string := "All contacts have been saved in a single .vcf file and sent."
  const SavedText: string := "/saved"

  /** The confirmation for a collected line: the upper-cased name without the
      tag, a space, the number. */
  function AddedReply(g: Groups): string {
    "Added: " + Upper(g.name) + " " + g.number
  }

  function ErrorReply(reason: string): string {
    "An error occurred: " + reason
  }

  /** Every record in the store is one the parser could have built. */
  predicate ValidStore(m: Store) {
    forall c :: c in m ==> forall i :: 0 <= i < |m[c]| ==> WellFormed(m[c][i])
  }

  // ---------------------------------------------------------------------------
  // The handlers' effects

  /** `/bulk` (bot.py:26-29): the chat's entry becomes the empty list, whatever
      it held; no other chat is touched. */
  function BulkStartStep(m: Store, chat: ChatId): (o: Outcome)
    ensures chat in o.contacts && o.contacts[chat] == []
    ensures forall c :: c != chat ==> (c in o.contacts <==> c in m)
    ensures forall c :: c in m && c != chat ==> o.contacts[c] == m[c]
    ensures o.reply == Some(BulkActivated) && o.document == None
  {
    Outcome(m[chat := []], Some(BulkActivated), None)
  }

  /** The filter of the collection handler (bot.py:32). */
  predicate CollectFilter(m: Store, chat: ChatId, text: string) {
    chat in m && text != SavedText
  }

  /** The collection handler (bot.py:33-46), reached only through its filter.
      A line that does not match leaves the store as it was and gets the
      format hint; a line that matches appends exactly one record, at the end
      of the chat's list, keeping the earlier ones in order. */
  function CollectStep(m: Store, chat: ChatId, text: string): (o: Outcome)
    requires chat in m
    ensures o.contacts.Keys == m.Keys
    ensures forall c :: c in m && c != chat ==> o.contacts[c] == m[c]
    ensures Parse(text).None? ==> o.contacts == m && o.reply == Some(FormatHint)
    ensures Parse(text).Some? ==>
              && |o.contacts[chat]| == |m[chat]| + 1
              && o.contacts[chat][..|m[chat]|] == m[chat]
              && o.contacts[chat][|m[chat]|] == Parse(text).value
              && o.reply == Some(AddedReply(MatchLine(text).value))
    ensures o.document == None
  {
    match MatchLine(text)
    case None => Outcome(m, Some(FormatHint), None)
    case Some(g) => Outcome(m[chat := m[chat] + [ToRecord(g)]], Some(AddedReply(g)), None)
  }

  /** `/saved` (bot.py:53-87). With no entry or an empty one nothing changes,
      so an empty entry stays and the chat goes on collecting. Otherwise the
      file holding the chat's records is produced; only if it was sent and
      removed is the entry deleted. If writing or sending raised, nothing was
      sent; if only the removal raised, the file was sent all the same. Either
      way the records are kept and the reply carries the error message. */
  function SaveStep(m: Store, chat: ChatId, delivery: Delivery): (o: Outcome)
    ensures (chat !in m || m[chat] == []) ==> o == Outcome(m, Some(NoContacts), None)
    ensures chat in m && m[chat] != [] && delivery.Delivered? ==>
              && o.contacts.Keys == m.Keys - {chat}
              && (forall c :: c in o.contacts ==> o.contacts[c] == m[c])
              && o.document == Some(Render(m[chat]))
              && o.reply == Some(AllSaved)
    ensures chat in m && m[chat] != [] && delivery.Failed? ==>
              o == Outcome(m, Some(ErrorReply(delivery.reason)), None)
    ensures chat in m && m[chat] != [] && delivery.RemoveFailed? ==>
              o == Outcome(m, Some(ErrorReply(delivery.reason)), Some(Render(m[chat])))
  {
    if chat !in m || |m[chat]| == 0 then Outcome(m, Some(NoContacts), None)
    else match delivery
      case Failed(reason) => Outcome(m, Some(ErrorReply(reason)), None)
      case RemoveFailed(reason) => Outcome(m, Some(ErrorReply(reason)), Some(Render(m[chat])))
      case Delivered => Outcome(m - {chat}, Some(AllSaved), Some(Render(m[chat])))
  }

  /** One incoming text message, given to the first registered handler that
      accepts it: `/start`, `/bulk`, the collection filter, `/saved`. A message
      no handler accepts changes nothing and gets no reply. Whatever happens,
      only the sender's own entry can change. */
  function Step(m: Store, chat: ChatId, text: string, cmd: Command, delivery: Delivery): (o: Outcome)
    ensures forall c :: c != chat ==> (c in o.contacts <==> c in m)
    ensures forall c :: c in m && c != chat ==> o.contacts[c] == m[c]
    ensures o.document.Some? ==>
              cmd == SavedCommand && !delivery.Failed? && chat in m && m[chat] != [] && o.document == Some(Render(m[chat]))
  {
    if cmd == StartCommand then Outcome(m, Some(Welcome), None)
    else if cmd == BulkCommand then BulkStartStep(m, chat)
    else if CollectFilter(m, chat, text) then CollectStep(m, chat, text)
    else if cmd == SavedCommand then SaveStep(m, chat, delivery)
    else Outcome(m, None, None)
  }

  // ---------------------------------------------------------------------------
  // Properties of single messages

  /** The collection handler keeps the store's records well formed. */
  lemma {:induction false} CollectPreservesValid(m: Store, chat: ChatId, text: string)
    requires ValidStore(m) && chat in m
    ensures ValidStore(CollectStep(m, chat, text).contacts)
  {
    var o := CollectStep(m, chat, text);
    if Parse(text).Some? {
      forall i | 0 <= i < |o.contacts[chat]| ensures WellFormed(o.contacts[chat][i]) {
        if i < |m[chat]| {
          assert o.contacts[chat][i] == o.contacts[chat][..|m[chat]|][i];
        }
      }
    }
  }

  /** Every message keeps the store's records well formed. */
  lemma {:induction false} StepPreservesValid(m: Store, chat: ChatId, text: string, cmd: Command, delivery: Delivery)
    requires ValidStore(m)
    ensures ValidStore(Step(m, chat, text, cmd, delivery).contacts)
  {
    if cmd != StartCommand && cmd != BulkCommand && CollectFilter(m, chat, text) {
      CollectPreservesValid(m, chat, text);
    }
  }

  /** The collection handler runs only for a collecting chat and a text other
      than exactly "/saved"; a plain message from any other chat is ignored. */
  lemma {:induction false} PlainTextOutsideSession(m: Store, chat: ChatId, text: string, delivery: Delivery)
    requires !CollectFilter(m, chat, text)
    ensures Step(m, chat, text, NoCommand, delivery) == Outcome(m, None, None)
  {
  }

  /** `/bulk` is registered before the collection handler, so while a chat is
      collecting it restarts the session instead of being read as a contact. */
  lemma {:induction false} BulkWhileCollecting(m: Store, chat: ChatId, text: string, delivery: Delivery)
    requires chat in m
    ensures Step(m, chat, text, BulkCommand, delivery).contacts == m[chat := []]
  {
  }

  /** The collection filter compares the whole text with "/saved", so while a
      chat is collecting a `/saved` command written any other way (with the
      bot's name after an '@', or with arguments) goes to the collection
      handler and does not save. */
  lemma {:induction false} SavedVariantIsCollected(m: Store, chat: ChatId, text: string, delivery: Delivery)
    requires chat in m && text != SavedText
    ensures Step(m, chat, text, SavedCommand, delivery) == CollectStep(m, chat, text)
  {
  }

  /** `/saved` from a collecting chat whose records the parser built. With
      none, the reply says so and the empty entry stays. Otherwise, whenever
      the file is sent, it reads back as exactly the chat's records in order
      and is five lines per record; the entry is gone only when the file was
      also removed, and kept when anything raised. */
  lemma {:induction false} SaveCollected(m: Store, chat: ChatId, delivery: Delivery)
    requires chat in m
    requires forall i :: 0 <= i < |m[chat]| ==> WellFormed(m[chat][i])
    ensures var o := Step(m, chat, SavedText, SavedCommand, delivery);
            && (m[chat] == [] ==> o == Outcome(m, Some(NoContacts), None))
            && (m[chat] != [] && !delivery.Failed? ==>
                  && o.document.Some?
                  && ReadCards(o.document.value) == Some(m[chat])
                  && CountNewlines(o.document.value) == 5 * |m[chat]|)
            && (m[chat] != [] && delivery.Delivered? ==>
                  o.contacts == m - {chat} && o.reply == Some(AllSaved))
            && (m[chat] != [] && !delivery.Delivered? ==>
                  o.contacts == m && o.reply == Some(ErrorReply(delivery.reason)))
            && (m[chat] != [] && delivery.Failed? ==> o.document == None)
  {
    var rs := m[chat];
    if rs != [] {
      forall i | 0 <= i < |rs| ensures LineSafe(rs[i]) {
        WellFormedIsLineSafe(rs[i]);
      }
      ReadRender(rs);
      RenderNewlines(rs);
    }
  }

  // ---------------------------------------------------------------------------
  // Sessions of several messages

  /** A text the collection filter lets through from a collecting chat. Feed
      sends each line as a message no command handler takes: plain text, or a
      command the bot has no handler for, such as "/foo 123". */
  predicate Collectable(text: string) {
    text != SavedText
  }

  /** The record one line yields, if it matches. */
  function LineRecords(line: string): (rs: seq<Record>)
    ensures |rs| <= 1
    ensures forall i :: 0 <= i < |rs| ==> WellFormed(rs[i])
  {
    match Parse(line)
    case None => []
    case Some(r) => [r]
  }

  /** The records a list of lines yields, in order, skipping lines that do not
      match. */
  function ParsedAll(lines: seq<string>): (rs: seq<Record>)
    ensures |rs| <= |lines|
    ensures forall i :: 0 <= i < |rs| ==> WellFormed(rs[i])
  {
    if lines == [] then [] else LineRecords(lines[0]) + ParsedAll(lines[1..])
  }

  /** The store after the chat sends these lines one after another, each
      taken by no command handler. */
  function Feed(m: Store, chat: ChatId, lines: seq<string>): Store
    decreases |lines|
  {
    if lines == [] then m
    else Feed(Step(m, chat, lines[0], NoCommand, Delivered).contacts, chat, lines[1..])
  }

  /** The collection handler appends what the line parses to. */
  lemma {:induction false} CollectAppends(m: Store, chat: ChatId, line: string)
    requires chat in m
    ensures CollectStep(m, chat, line).contacts == m[chat := m[chat] + LineRecords(line)]
  {
    var o := CollectStep(m, chat, line);
    match MatchLine(line) {
      case None =>
        assert o.contacts == m;
        assert LineRecords(line) == [];
        assert m[chat := m[chat] + []] == m by {
          assert m[chat] + [] == m[chat];
        }
      case Some(g) =>
        assert o.contacts == m[chat := m[chat] + [ToRecord(g)]];
        assert LineRecords(line) == [ToRecord(g)];
    }
  }

  /** One line from a collecting chat, taken by no command handler, appends
      what it parses to. */
  lemma {:induction false} FeedOne(m: Store, chat: ChatId, line: string)
    requires chat in m && Collectable(line)
    ensures Step(m, chat, line, NoCommand, Delivered).contacts == m[chat := m[chat] + LineRecords(line)]
  {
    CollectAppends(m, chat, line);
  }

  lemma {:induction false} AppendAssoc<T>(a: seq<T>, b: seq<T>, c: seq<T>)
    ensures a + b + c == a + (b + c)
  {
  }

  /** Setting a chat's entry twice keeps only the second value. */
  lemma {:induction false} UpdateTwice(m: Store, chat: ChatId, first: seq<Record>, second: seq<Record>)
    ensures m[chat := first][chat := second] == m[chat := second]
  {
  }

  /** While a chat is collecting, such lines only ever append: the chat's list
      grows by the parsed records in the order sent, and nothing else changes. */
  lemma {:induction false} FeedAppends(m: Store, chat: ChatId, lines: seq<string>)
    requires chat in m
    requires forall i :: 0 <= i < |lines| ==> Collectable(lines[i])
    ensures Feed(m, chat, lines) == m[chat := m[chat] + ParsedAll(lines)]
  {
    if lines == [] {
      assert m[chat] + [] == m[chat];
      assert m[chat := m[chat]] == m;
    } else {
      var first, rest := LineRecords(lines[0]), ParsedAll(lines[1..]);
      var m1 := Step(m, chat, lines[0], NoCommand, Delivered).contacts;
      FeedOne(m, chat, lines[0]);
      assert forall i :: 0 <= i < |lines[1..]| ==> Collectable(lines[1..][i]) by {
        forall i | 0 <= i < |lines[1..]| ensures Collectable(lines[1..][i]) {
          assert lines[1..][i] == lines[i + 1];
        }
      }
      FeedAppends(m1, chat, lines[1..]);
      assert Feed(m, chat, lines) == m[chat := m[chat] + first][chat := m[chat] + first + rest];
      UpdateTwice(m, chat, m[chat] + first, m[chat] + first + rest);
      AppendAssoc(m[chat], first, rest);
    }
  }

  /** After /bulk and a run of such lines, the chat holds exactly the records
      those lines parse to, whatever it held before. */
  lemma {:induction false} BulkThenFeed(m: Store, chat: ChatId, lines: seq<string>, delivery: Delivery)
    requires forall i :: 0 <= i < |lines| ==> Collectable(lines[i])
    ensures Feed(Step(m, chat, "/bulk", BulkCommand, delivery).contacts, chat, lines) == m[chat := ParsedAll(lines)]
  {
    var m1 := Step(m, chat, "/bulk", BulkCommand, delivery).contacts;
    assert m1 == m[chat := []];
    FeedAppends(m1, chat, lines);
    var rs := ParsedAll(lines);
    assert [] + rs == rs;
    UpdateTwice(m, chat, [], rs);
  }

  /** Removing a chat forgets whatever it was last set to. */
  lemma {:induction false} RemoveUpdated(m: Store, chat: ChatId, v: seq<Record>)
    ensures m[chat := v] - {chat} == m - {chat}
  {
  }

  /** A whole session: `/bulk`, then lines other than "/saved" that no command
      handler takes, then `/saved`. Whatever the
      chat held before is discarded; the export holds exactly the records the
      lines parse to, in the order sent. */
  lemma {:induction false} BulkSession(m: Store, chat: ChatId, lines: seq<string>, delivery: Delivery)
    requires forall i :: 0 <= i < |lines| ==> Collectable(lines[i])
    ensures var m1 := Step(m, chat, "/bulk", BulkCommand, delivery).contacts;
            var o := Step(Feed(m1, chat, lines), chat, SavedText, SavedCommand, delivery);
            var rs := ParsedAll(lines);
            && (rs == [] ==> o == Outcome(m[chat := []], Some(NoContacts), None))
            && (rs != [] && !delivery.Failed? ==>
                  && o.document.Some?
                  && ReadCards(o.document.value) == Some(rs)
                  && CountNewlines(o.document.value) == 5 * |rs|)
            && (rs != [] && delivery.Delivered? ==> o.contacts == m - {chat})
            && (rs != [] && !delivery.Delivered? ==>
                  o.contacts == m[chat := rs] && o.reply == Some(ErrorReply(delivery.reason)))
            && (rs != [] && delivery.Failed? ==> o.document == None)
  {
    BulkThenFeed(m, chat, lines, delivery);
    var rs := ParsedAll(lines);
    SaveCollected(m[chat := rs], chat, delivery);
    if rs != [] && delivery.Delivered? {
      RemoveUpdated(m, chat, rs);
    }
  }

  // ---------------------------------------------------------------------------
  // The bot's state, updated in place

  class ContactBot {
    /** `bulk_contacts`: the records collected so far, per collecting chat. */
    var contacts: Store

    ghost predicate Valid()
      reads this
    {
      ValidStore(contacts)
    }

    constructor ()
      ensures Valid() && contacts == map[]
    {
      contacts := map[];
    }

    /** bulk_start (bot.py:26-29). */
    method BulkStart(chat: ChatId) returns (reply: string)
      requires Valid()
      modifies this
      ensures Valid()
      ensures contacts == BulkStartStep(old(contacts), chat).contacts
      ensures Some(reply) == BulkStartStep(old(contacts), chat).reply
    {
      contacts := contacts[chat := []];
      reply := BulkActivated;
    }

    /** collect_bulk_contacts (bot.py:33-49), called only when its filter holds. */
    method CollectBulkContacts(chat: ChatId, text: string) returns (reply: string)
      requires Valid() && CollectFilter(contacts, chat, text)
      modifies this
      ensures Valid()
      ensures contacts == CollectStep(old(contacts), chat, text).contacts
      ensures Some(reply) == CollectStep(old(contacts), chat, text).reply
    {
      var groups := MatchLine(text);
      if groups.None? {
        reply := FormatHint;
        return;
      }
      var g := groups.value;
      var record := ToRecord(g);
      contacts := contacts[chat := contacts[chat] + [record]];
      reply := AddedReply(g);
      CollectPreservesValid(old(contacts), chat, text);
    }

    /** bulk_save (bot.py:53-87): the file is written record by record, then
        the entry is deleted only once delivery has succeeded. */
    method BulkSave(chat: ChatId, delivery: Delivery) returns (reply: string, document: Option<string>)
      requires Valid()
      modifies this
      ensures Valid()
      ensures contacts == SaveStep(old(contacts), chat, delivery).contacts
      ensures Some(reply) == SaveStep(old(contacts), chat, delivery).reply
      ensures document == SaveStep(old(contacts), chat, delivery).document
    {
      if chat !in contacts || |contacts[chat]| == 0 {
        reply := NoContacts;
        document := None;
        return;
      }
      var content := WriteCards(contacts[chat]);
      match delivery {
        case Failed(reason) =>
          reply := ErrorReply(reason);
          document := None;
        case RemoveFailed(reason) =>
          reply := ErrorReply(reason);
          document := Some(content);
        case Delivered =>
          document := Some(content);
          contacts := contacts - {chat};
          reply := AllSaved;
      }
    }

    /** One incoming text message, handed to the first handler that accepts it. */
    method Handle(chat: ChatId, text: string, cmd: Command, delivery: Delivery)
      returns (reply: Option<string>, document: Option<string>)
      requires Valid()
      modifies this
      ensures Valid()
      ensures Outcome(contacts, reply, document) == Step(old(contacts), chat, text, cmd, delivery)
    {
      document := None;
      if cmd == StartCommand {
        reply := Some(Welcome);
      } else if cmd == BulkCommand {
        var r := BulkStart(chat);
        reply := Some(r);
      } else if CollectFilter(contacts, chat, text) {
        var r := CollectBulkContacts(chat, text);
        reply := Some(r);
      } else if cmd == SavedCommand {
        var r;
        r, document := BulkSave(chat, delivery);
        reply := Some(r);
      } else {
        reply := None;
      }
    }
  }

}
