/** The message list: sending, a user's inbox and outbox newest first, a conversation
    oldest first, marking as read and the unread count. */
module MessageServiceModel {
  import opened Options
  import Seqs
  import Sorting
  import opened MessageModel

  /** The message was sent or received by the user. */
  predicate Involves(m: Message, userId: string)
  {
    m.receiverId == userId || m.senderId == userId
  }

  /** The message went from one of the two users to the other. */
  predicate Between(m: Message, user1Id: string, user2Id: string)
  {
    (m.senderId == user1Id && m.receiverId == user2Id)
    || (m.senderId == user2Id && m.receiverId == user1Id)
  }

  /** The sort key: the send time, negated for newest first. */
  function TimeKey(m: Message, newestFirst: bool): int
    reads m
  {
    if newestFirst then -m.sentAt else m.sentAt
  }

  function KeyedByTime(ms: seq<Message>, newestFirst: bool): (r: seq<(int, Message)>)
    reads set i | 0 <= i < |ms| :: ms[i]
    ensures |r| == |ms|
    ensures forall i :: 0 <= i < |ms| ==> r[i] == (TimeKey(ms[i], newestFirst), ms[i])
  {
    if ms == [] then [] else [(TimeKey(ms[0], newestFirst), ms[0])] + KeyedByTime(ms[1..], newestFirst)
  }

  /** Every pair of a permutation of the keyed list still carries its message's key. */
  lemma SortedTimeKeysMatch(keyed: seq<(int, Message)>, sorted: seq<(int, Message)>, newestFirst: bool)
    requires forall i :: 0 <= i < |keyed| ==> keyed[i].0 == TimeKey(keyed[i].1, newestFirst)
    requires multiset(sorted) == multiset(keyed)
    ensures forall i :: 0 <= i < |sorted| ==> sorted[i].0 == TimeKey(sorted[i].1, newestFirst)
  {
    forall i | 0 <= i < |sorted| ensures sorted[i].0 == TimeKey(sorted[i].1, newestFirst) {
      assert sorted[i] in multiset(sorted);
      assert sorted[i] in multiset(keyed);
      var j :| 0 <= j < |keyed| && keyed[j] == sorted[i];
    }
  }

  /** The stream's sorted step on sentAt, newest or oldest first. */
  function SortedByTime(ms: seq<Message>, newestFirst: bool): (r: seq<Message>)
    reads set i | 0 <= i < |ms| :: ms[i]
    ensures |r| == |ms|
    ensures multiset(r) == multiset(ms)
    ensures forall i, j :: 0 <= i < j < |r| ==> TimeKey(r[i], newestFirst) <= TimeKey(r[j], newestFirst)
  {
    var keyed := KeyedByTime(ms, newestFirst);
    var sorted := Sorting.SortByKey(keyed);
    Sorting.SortPermutes(keyed);
    Sorting.SortPermutesValues(keyed);
    assert Sorting.Values(keyed) == ms;
    SortedTimeKeysMatch(keyed, sorted, newestFirst);
    Sorting.Values(sorted)
  }

  /** A permutation of the p-messages of ms holds exactly the p-messages of ms. */
  lemma PermutedFilterMembers(ms: seq<Message>, p: Message -> bool, r: seq<Message>)
    requires multiset(r) == multiset(Seqs.Filter(ms, p))
    ensures forall i :: 0 <= i < |r| ==> r[i] in ms && p(r[i])
    ensures forall i :: 0 <= i < |ms| && p(ms[i]) ==> ms[i] in r
  {
    var f := Seqs.Filter(ms, p);
    forall i | 0 <= i < |r| ensures r[i] in ms && p(r[i]) {
      assert r[i] in multiset(f);
      var j :| 0 <= j < |f| && f[j] == r[i];
    }
    forall i | 0 <= i < |ms| && p(ms[i]) ensures ms[i] in r {
      var j :| 0 <= j < |f| && f[j] == ms[i];
      assert f[j] in multiset(f);
    }
  }

  /** The read flags of the messages, in order. */
  function ReadFlags(ms: seq<Message>): (r: seq<bool>)
    reads set i | 0 <= i < |ms| :: ms[i]
    ensures |r| == |ms| && forall i :: 0 <= i < |ms| ==> r[i] == ms[i].isRead
  {
    if ms == [] then [] else [ms[0].isRead] + ReadFlags(ms[1..])
  }

  /** Number of messages received by the user whose read flag is off. */
  function Unread(ms: seq<Message>, read: seq<bool>, userId: string): nat
    requires |read| == |ms|
  {
    if ms == [] then 0
    else (if ms[0].receiverId == userId && !read[0] then 1 else 0) + Unread(ms[1..], read[1..], userId)
  }

  /** The unread messages of a user are among the messages they received. */
  lemma {:induction false} UnreadAtMostReceived(ms: seq<Message>, read: seq<bool>, userId: string)
    requires |read| == |ms|
    ensures Unread(ms, read, userId) <= |Seqs.Filter(ms, (m: Message) => m.receiverId == userId)|
  {
    if ms != [] {
      UnreadAtMostReceived(ms[1..], read[1..], userId);
    }
  }

  /** The positions of the messages received by the user whose read flag is off. */
  ghost function UnreadPositions(ms: seq<Message>, read: seq<bool>, userId: string): set<int>
    requires |read| == |ms|
  {
    set i | 0 <= i < |ms| && ms[i].receiverId == userId && !read[i]
  }

  /** Appending one message adds one to the count exactly when it is unread and the user's. */
  lemma {:induction false} UnreadSnoc(ms: seq<Message>, read: seq<bool>, m: Message, flag: bool,
                                      userId: string)
    requires |read| == |ms|
    ensures Unread(ms + [m], read + [flag], userId)
            == Unread(ms, read, userId) + (if m.receiverId == userId && !flag then 1 else 0)
  {
    if ms == [] {
      assert ms + [m] == [m] && read + [flag] == [flag];
    } else {
      assert (ms + [m])[1..] == ms[1..] + [m];
      assert (read + [flag])[1..] == read[1..] + [flag];
      UnreadSnoc(ms[1..], read[1..], m, flag, userId);
    }
  }

  /** The unread count is the number of positions holding an unread message of the user. */
  lemma {:induction false} UnreadCountsPositions(ms: seq<Message>, read: seq<bool>, userId: string)
    requires |read| == |ms|
    ensures Unread(ms, read, userId) == |UnreadPositions(ms, read, userId)|
    decreases |ms|
  {
    if ms == [] {
      assert UnreadPositions(ms, read, userId) == {};
    } else {
      var n := |ms| - 1;
      var front, frontRead := ms[..n], read[..n];
      assert ms == front + [ms[n]] && read == frontRead + [read[n]];
      UnreadCountsPositions(front, frontRead, userId);
      UnreadSnoc(front, frontRead, ms[n], read[n], userId);
      var before := UnreadPositions(front, frontRead, userId);
      if ms[n].receiverId == userId && !read[n] {
        assert UnreadPositions(ms, read, userId) == before + {n};
        assert n !in before;
      } else {
        assert UnreadPositions(ms, read, userId) == before;
      }
    }
  }

  /** When no message goes from read back to unread, no user's unread count grows. */
  lemma {:induction false} UnreadNeverGrows(ms: seq<Message>, before: seq<bool>, after: seq<bool>,
                                            userId: string)
    requires |before| == |ms| && |after| == |ms|
    requires forall i :: 0 <= i < |ms| && before[i] ==> after[i]
    ensures Unread(ms, after, userId) <= Unread(ms, before, userId)
  {
    if ms != [] {
      UnreadNeverGrows(ms[1..], before[1..], after[1..], userId);
    }
  }

  class MessageService {
    var messages: seq<Message>

    /** The list read from the messages file. */
    constructor (loaded: seq<Message>)
      ensures messages == loaded
    {
      messages := loaded;
    }

    /** sendMessage: a new unread message with id `newId` sent at `now` is appended in memory;
        the result is that of the file append (`appended`). */
    method SendMessage(senderId: string, receiverId: string, subject: string, content: string,
                       newId: string, now: int, appended: bool) returns (ok: bool, message: Message)
      modifies this`messages
      ensures fresh(message)
      ensures message.Row() == MessageRow(newId, senderId, receiverId, subject, content, now, false)
      ensures messages == old(messages) + [message]
      ensures ok == appended
    {
      message := new Message(newId, senderId, receiverId, subject, content, now);
      messages := messages + [message];
      ok := appended;
    }

    /** getMessagesForUser: the messages the user sent or received, newest first. */
    function MessagesForUser(userId: string): (r: seq<Message>)
      reads this, messages
      ensures forall i :: 0 <= i < |r| ==> r[i] in messages && Involves(r[i], userId)
      ensures forall i :: 0 <= i < |messages| && Involves(messages[i], userId) ==> messages[i] in r
      ensures multiset(r) == multiset(Seqs.Filter(messages, (m: Message) => Involves(m, userId)))
      ensures forall i, j :: 0 <= i < j < |r| ==> r[i].sentAt >= r[j].sentAt
    {
      var involved := Seqs.Filter(messages, (m: Message) => Involves(m, userId));
      var r := SortedByTime(involved, true);
      PermutedFilterMembers(messages, (m: Message) => Involves(m, userId), r);
      r
    }

    /** getConversation: the messages between the two users in either direction, oldest
        first. */
    function Conversation(user1Id: string, user2Id: string): (r: seq<Message>)
      reads this, messages
      ensures forall i :: 0 <= i < |r| ==> r[i] in messages && Between(r[i], user1Id, user2Id)
      ensures forall i :: 0 <= i < |messages| && Between(messages[i], user1Id, user2Id) ==> messages[i] in r
      ensures multiset(r) == multiset(Seqs.Filter(messages, (m: Message) => Between(m, user1Id, user2Id)))
      ensures forall i, j :: 0 <= i < j < |r| ==> r[i].sentAt <= r[j].sentAt
    {
      var between := Seqs.Filter(messages, (m: Message) => Between(m, user1Id, user2Id));
      var r := SortedByTime(between, false);
      PermutedFilterMembers(messages, (m: Message) => Between(m, user1Id, user2Id), r);
      r
    }

    /** A conversation is the same whichever user is named first. */
    lemma ConversationIsSymmetric(user1Id: string, user2Id: string)
      ensures Conversation(user1Id, user2Id) == Conversation(user2Id, user1Id)
    {
      Seqs.FilterAgree(messages, (m: Message) => Between(m, user1Id, user2Id),
                  (m: Message) => Between(m, user2Id, user1Id));
    }

    /** A conversation is part of each participant's messages. */
    lemma ConversationWithinMessages(user1Id: string, user2Id: string)
      ensures forall m :: m in Conversation(user1Id, user2Id) ==>
                m in MessagesForUser(user1Id) && m in MessagesForUser(user2Id)
    {
    }

    /** markMessageAsRead: the first message with the id is marked read; nothing else
        changes, and nothing at all when there is none. */
    method MarkMessageAsRead(messageId: string)
      modifies messages
      ensures messages == old(messages)
      ensures var k := Seqs.FirstIndex(messages, (m: Message) => m.messageId == messageId);
              && (k < |messages| ==> messages[k].Row() == old(messages[k].Row()).(isRead := true))
              && (forall i :: 0 <= i < |messages| && (k == |messages| || messages[i] != messages[k])
                    ==> messages[i].Row() == old(messages[i].Row()))
      ensures forall userId :: UnreadMessageCount(userId) <= old(UnreadMessageCount(userId))
    {
      var k := Seqs.FirstIndex(messages, (m: Message) => m.messageId == messageId);
      if k < |messages| {
        messages[k].MarkAsRead();
      }
      forall userId ensures UnreadMessageCount(userId) <= old(UnreadMessageCount(userId)) {
        UnreadNeverGrows(messages, old(ReadFlags(messages)), ReadFlags(messages), userId);
      }
    }

    /** getUnreadMessageCount: unread messages received by the user. */
    function UnreadMessageCount(userId: string): (n: nat)
      reads this, messages
      ensures n <= |Seqs.Filter(messages, (m: Message) => m.receiverId == userId)|
      ensures n == |set i | 0 <= i < |messages| && messages[i].receiverId == userId && !messages[i].isRead|
    {
      UnreadAtMostReceived(messages, ReadFlags(messages), userId);
      UnreadCountsPositions(messages, ReadFlags(messages), userId);
      assert UnreadPositions(messages, ReadFlags(messages), userId)
          == set i | 0 <= i < |messages| && messages[i].receiverId == userId && !messages[i].isRead;
      Unread(messages, ReadFlags(messages), userId)
    }
  }
}
