/**
 * The chat list page: one entry per array-valued chat-history thread,
 * labelled with the thread's contact and the length of the thread. Unlike
 * the dashboard normaliser it does not merge threads that share a contact.
 */
module ChatList {
  import opened JsValues
  import opened Records
  import opened JsStrings
  import opened DataProcessing

  datatype ChatSummary = ChatSummary(contact: string, totalMessages: int)

  /** What one contact-labelled thread adds to the list: an entry when its
      value is an array, nothing otherwise. */
  function EntryOf(t: (string, Json)): seq<ChatSummary> {
    if t.1.Arr? then [ChatSummary(t.0, |t.1.items|)] else []
  }

  /** The list after visiting the contact-labelled threads `cs` in
      `Object.keys` order. */
  function ChatSummariesOf(cs: seq<(string, Json)>): seq<ChatSummary>
    decreases |cs|
  {
    if |cs| == 0 then []
    else ChatSummariesOf(cs[..|cs| - 1]) + EntryOf(cs[|cs| - 1])
  }

  /** The page's effect: `None` when the stored data is falsy and the list
      is left as it was, otherwise the list it stores. */
  method ChatSummaries(data: Json) returns (r: Option<seq<ChatSummary>>)
    ensures !Truthy(data) ==> r == None
    ensures Truthy(data) ==> r == Some(ChatSummariesOf(Contacts(Threads(data))))
  {
    if !Truthy(data) {
      return None;
    }
    var dmData := ChatHistoryOf(data);
    var threads := Entries(dmData);
    ghost var cs := Contacts(threads);
    var summaries: seq<ChatSummary> := [];
    var i := 0;
    while i < |threads|
      invariant 0 <= i <= |threads|
      invariant summaries == ChatSummariesOf(cs[..i])
    {
      var threadName := threads[i].0;
      var messages := threads[i].1;
      var contact := ContactKey(threadName);
      assert cs[i] == (contact, messages);
      assert cs[..i + 1][..i] == cs[..i];
      if messages.Arr? {
        summaries := summaries + [ChatSummary(contact, |messages.items|)];
      }
      i := i + 1;
    }
    assert cs[..i] == cs;
    return Some(summaries);
  }

  /** Threads are listed independently: the list of a concatenation is the
      concatenation of the lists. */
  lemma {:induction false} ChatSummariesAppend(a: seq<(string, Json)>, b: seq<(string, Json)>)
    ensures ChatSummariesOf(a + b) == ChatSummariesOf(a) + ChatSummariesOf(b)
    decreases |b|
  {
    if |b| > 0 {
      var init := b[..|b| - 1];
      var last := b[|b| - 1];
      assert (a + b)[..|a + b| - 1] == a + init;
      assert (a + b)[|a + b| - 1] == last;
      ChatSummariesAppend(a, init);
      calc {
        ChatSummariesOf(a + b);
        ChatSummariesOf(a + init) + EntryOf(last);
        ChatSummariesOf(a) + ChatSummariesOf(init) + EntryOf(last);
        ChatSummariesOf(a) + (ChatSummariesOf(init) + EntryOf(last));
        ChatSummariesOf(a) + ChatSummariesOf(b);
      }
    } else {
      assert a + b == a;
    }
  }

  lemma {:induction false} FirstThread(cs: seq<(string, Json)>)
    requires |cs| > 0
    ensures ChatSummariesOf(cs) == EntryOf(cs[0]) + ChatSummariesOf(cs[1..])
    decreases |cs|
  {
    var n := |cs|;
    if n == 1 {
      assert cs[..0] == [] && cs[1..] == [];
    } else {
      var init := cs[..n - 1];
      FirstThread(init);
      assert init[0] == cs[0];
      assert cs[1..][..n - 2] == init[1..];
      assert cs[1..][n - 2] == cs[n - 1];
    }
  }

  /** The number of array-valued threads labelled `c`. */
  function ArrayThreadsFor(cs: seq<(string, Json)>, c: string): nat
    decreases |cs|
  {
    if |cs| == 0 then 0
    else (if cs[0].1.Arr? && cs[0].0 == c then 1 else 0) + ArrayThreadsFor(cs[1..], c)
  }

  /** The number of array-valued threads. */
  function ArrayThreads(cs: seq<(string, Json)>): nat
    decreases |cs|
  {
    if |cs| == 0 then 0 else (if cs[0].1.Arr? then 1 else 0) + ArrayThreads(cs[1..])
  }

  /** The number of entries listed for `c`. */
  function EntriesFor(s: seq<ChatSummary>, c: string): nat
    decreases |s|
  {
    if |s| == 0 then 0 else (if s[0].contact == c then 1 else 0) + EntriesFor(s[1..], c)
  }

  /** The messages the list shows for `c`, over all of its entries. */
  function MessagesFor(s: seq<ChatSummary>, c: string): int
    decreases |s|
  {
    if |s| == 0 then 0 else (if s[0].contact == c then s[0].totalMessages else 0) + MessagesFor(s[1..], c)
  }

  /** One entry per array thread, and nothing for any other thread. */
  lemma {:induction false} ChatSummariesCount(cs: seq<(string, Json)>)
    ensures |ChatSummariesOf(cs)| == ArrayThreads(cs)
    decreases |cs|
  {
    if |cs| > 0 {
      FirstThread(cs);
      ChatSummariesCount(cs[1..]);
    }
  }

  /** No merging: a contact is listed once for every array thread labelled
      with it. */
  lemma {:induction false} EntriesPerContact(cs: seq<(string, Json)>, c: string)
    ensures EntriesFor(ChatSummariesOf(cs), c) == ArrayThreadsFor(cs, c)
    decreases |cs|
  {
    if |cs| > 0 {
      FirstThread(cs);
      var e := EntryOf(cs[0]);
      var rest := ChatSummariesOf(cs[1..]);
      EntriesPerContact(cs[1..], c);
      if e != [] {
        assert (e + rest)[1..] == rest;
      } else {
        assert e + rest == rest;
      }
    }
  }

  /** Over all of a contact's entries the list shows as many messages as
      the dashboard's summary counts for that contact. */
  lemma {:induction false} MessagesMatchCountFor(cs: seq<(string, Json)>, c: string)
    ensures MessagesFor(ChatSummariesOf(cs), c) == CountFor(cs, c)
    decreases |cs|
  {
    if |cs| > 0 {
      FirstThread(cs);
      var e := EntryOf(cs[0]);
      var rest := ChatSummariesOf(cs[1..]);
      MessagesMatchCountFor(cs[1..], c);
      if e != [] {
        assert (e + rest)[1..] == rest;
      } else {
        assert e + rest == rest;
      }
    }
  }

  lemma MessagesMatchDashboard(cs: seq<(string, Json)>, c: string)
    ensures MessagesFor(ChatSummariesOf(cs), c) == LookupOr(SummaryOf(cs), c, 0)
  {
    MessagesMatchCountFor(cs, c);
    SummaryCountIsSum(cs, c);
  }

  /** Every entry comes from an array thread: its contact is the thread's
      label and its count the thread's length. */
  lemma {:induction false} EntryOrigin(cs: seq<(string, Json)>, j: nat)
    requires j < |ChatSummariesOf(cs)|
    ensures exists i :: 0 <= i < |cs| && cs[i].1.Arr? && ChatSummariesOf(cs)[j] == ChatSummary(cs[i].0, |cs[i].1.items|)
    decreases |cs|
  {
    var init := cs[..|cs| - 1];
    var s := ChatSummariesOf(init);
    if j < |s| {
      EntryOrigin(init, j);
      var i :| 0 <= i < |init| && init[i].1.Arr? && s[j] == ChatSummary(init[i].0, |init[i].1.items|);
      assert cs[i] == init[i];
    } else {
      assert ChatSummariesOf(cs)[j] == EntryOf(cs[|cs| - 1])[0];
    }
  }

  /** So on the page every listed contact is the normalised label of an
      array thread. */
  lemma ListedContactOrigin(threads: seq<(string, Json)>, j: nat)
    requires j < |ChatSummariesOf(Contacts(threads))|
    ensures exists i :: ArrayThreadWithKey(threads, i, ChatSummariesOf(Contacts(threads))[j].contact)
  {
    var cs := Contacts(threads);
    EntryOrigin(cs, j);
    var i :| 0 <= i < |cs| && cs[i].1.Arr? && ChatSummariesOf(cs)[j] == ChatSummary(cs[i].0, |cs[i].1.items|);
    assert cs[i].0 == ContactKey(threads[i].0);
    assert ArrayThreadWithKey(threads, i, cs[i].0);
  }

  /** Thread `i` is an array whose label normalises to `c`. */
  predicate ArrayThreadWithKey(threads: seq<(string, Json)>, i: int, c: string) {
    0 <= i < |threads| && threads[i].1.Arr? && ContactKey(threads[i].0) == c
  }

  /** And it is lower-case and trimmed. */
  lemma ContactsAreNormal(threads: seq<(string, Json)>, j: nat)
    requires j < |ChatSummariesOf(Contacts(threads))|
    ensures var c := ChatSummariesOf(Contacts(threads))[j].contact;
      && (forall k :: 0 <= k < |c| ==> !IsUpper(c[k]))
      && (c != [] ==> !IsSpace(c[0]) && !IsSpace(c[|c| - 1]))
  {
    ListedContactOrigin(threads, j);
    var i :| ArrayThreadWithKey(threads, i, ChatSummariesOf(Contacts(threads))[j].contact);
    ContactKeyIsNormal(threads[i].0);
  }

  /** Two array threads with the same contact are listed twice here, while
      the dashboard's summary holds one key with their lengths added. */
  lemma SameContactListedTwice(c: string, m1: seq<Json>, m2: seq<Json>)
    ensures var cs := [(c, Arr(m1)), (c, Arr(m2))];
      && ChatSummariesOf(cs) == [ChatSummary(c, |m1|), ChatSummary(c, |m2|)]
      && SummaryOf(cs) == [(c, |m1| + |m2|)]
  {
    var cs := [(c, Arr(m1)), (c, Arr(m2))];
    var one := cs[..1];
    assert one == [(c, Arr(m1))];
    assert one[..0] == [];
    assert ChatSummariesOf(one) == [ChatSummary(c, |m1|)];
    assert SummaryOf(one) == [(c, |m1|)];
    assert ChatSummariesOf(cs) == ChatSummariesOf(one) + [ChatSummary(c, |m2|)];
    assert SummaryOf(cs) == Tally(SummaryOf(one), (c, Arr(m2)));
  }

  /** Two headers that differ only in letter case give two entries for the
      same contact on this page, while the dashboard merges them into one. */
  lemma CaseVariantsAreListedTwice(n1: string, n2: string, m1: seq<Json>, m2: seq<Json>)
    requires ':' !in n1 && ':' !in n2
    requires Lower(Trim(n1)) == Lower(Trim(n2))
    ensures var threads := [(ChatPrefix + n1 + ":", Arr(m1)), (ChatPrefix + n2 + ":", Arr(m2))];
      var c := Lower(Trim(n1));
      && ChatSummariesOf(Contacts(threads)) == [ChatSummary(c, |m1|), ChatSummary(c, |m2|)]
      && SummaryOf(Contacts(threads)) == [(c, |m1| + |m2|)]
  {
    var threads := [(ChatPrefix + n1 + ":", Arr(m1)), (ChatPrefix + n2 + ":", Arr(m2))];
    ContactKeyOfHeader(n1);
    ContactKeyOfHeader(n2);
    var c := Lower(Trim(n1));
    assert Contacts(threads) == [(c, Arr(m1)), (c, Arr(m2))];
    SameContactListedTwice(c, m1, m2);
  }

  /** Without a chat-history section the page lists nothing. */
  lemma MissingChatHistoryListsNothing(data: Json)
    requires !Truthy(Path(data, ["Direct Messages", "Chat History", "ChatHistory"]))
    ensures ChatSummariesOf(Contacts(Threads(data))) == []
  {
  }
}
