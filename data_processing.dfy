/**
 * `processTikTokData` (app/utils/dataProcessing.ts): resolves the profile
 * fields, summarises the direct-message threads per contact, collects the
 * owner's sent messages and passes the login and shopping sections on.
 */
module DataProcessing {
  import opened JsValues
  import opened JsStrings
  import opened Records

  datatype ProfileData = ProfileData(name: Json, birthDate: Json)

  datatype SentMessage = SentMessage(contact: string, date: Json)

  datatype DmData = DmData(dmSummaryObj: Record<int>, sentMessagesList: seq<SentMessage>)

  datatype ProcessedData = ProcessedData(
    profileData: ProfileData,
    dmData: DmData,
    loginData: Json,
    shoppingData: Json)

  // ---------------------------------------------------------------------
  // Profile
  // ---------------------------------------------------------------------

  const Unknown: Json := Str("Unknown")

  /** The places a profile field is looked up, in priority order. */
  function ProfileCandidates(data: Json, field: string, flatKey: string): seq<Json> {
    [ Get(data, flatKey),
      Path(data, ["Profile", "Profile Information", "ProfileMap", field]),
      Path(data, ["Profile", field]) ]
  }

  /** The `||` chains of the profile: each field falls back on its own. */
  function ResolveProfile(data: Json): ProfileData {
    ProfileData(
      Or(Or(Or(Get(data, "name"),
               Path(data, ["Profile", "Profile Information", "ProfileMap", "userName"])),
            Path(data, ["Profile", "userName"])),
         Unknown),
      Or(Or(Or(Get(data, "birthDate"),
               Path(data, ["Profile", "Profile Information", "ProfileMap", "birthDate"])),
            Path(data, ["Profile", "birthDate"])),
         Unknown))
  }

  /** Reference definition: the first truthy candidate, else the default. */
  function FirstTruthyOr(cands: seq<Json>, dflt: Json): Json
    decreases |cands|
  {
    if |cands| == 0 then dflt
    else if Truthy(cands[0]) then cands[0]
    else FirstTruthyOr(cands[1..], dflt)
  }

  /** `FirstTruthyOr` is the default when no candidate is truthy, and
      otherwise the first truthy candidate. */
  lemma {:induction false} FirstTruthyOrSpec(cands: seq<Json>, dflt: Json)
    ensures (forall i :: 0 <= i < |cands| ==> !Truthy(cands[i])) ==> FirstTruthyOr(cands, dflt) == dflt
    ensures (exists i :: 0 <= i < |cands| && Truthy(cands[i])) ==>
      exists i :: 0 <= i < |cands| && FirstTruthyOr(cands, dflt) == cands[i] && Truthy(cands[i])
        && forall j :: 0 <= j < i ==> !Truthy(cands[j])
    decreases |cands|
  {
    if |cands| > 0 && !Truthy(cands[0]) {
      FirstTruthyOrSpec(cands[1..], dflt);
      assert forall i :: 1 <= i < |cands| ==> cands[i] == cands[1..][i - 1];
      if exists i :: 0 <= i < |cands| && Truthy(cands[i]) {
        var i :| 0 <= i < |cands[1..]| && FirstTruthyOr(cands, dflt) == cands[1..][i] && Truthy(cands[1..][i])
          && forall j :: 0 <= j < i ==> !Truthy(cands[1..][j]);
        assert FirstTruthyOr(cands, dflt) == cands[i + 1];
      }
    }
  }

  /** A left-nested `a || b || c || d` picks the first truthy of `a`, `b`,
      `c`, else `d`. */
  lemma {:induction false} OrChainIsFirstTruthy(a: Json, b: Json, c: Json, d: Json)
    ensures Or(Or(Or(a, b), c), d) == FirstTruthyOr([a, b, c], d)
  {
    var s := [a, b, c];
    assert s[1..] == [b, c] && s[1..][1..] == [c] && s[1..][1..][1..] == [];
    assert FirstTruthyOr([c], d) == Or(c, d);
    assert FirstTruthyOr([b, c], d) == Or(b, Or(c, d));
    assert FirstTruthyOr(s, d) == Or(a, Or(b, Or(c, d)));
  }

  /** Both profile fields are the first truthy value of their own chain, and
      are always truthy. */
  lemma ProfileIsFirstTruthy(data: Json)
    ensures ResolveProfile(data).name == FirstTruthyOr(ProfileCandidates(data, "userName", "name"), Unknown)
    ensures ResolveProfile(data).birthDate == FirstTruthyOr(ProfileCandidates(data, "birthDate", "birthDate"), Unknown)
    ensures Truthy(ResolveProfile(data).name) && Truthy(ResolveProfile(data).birthDate)
  {
    var n := ProfileCandidates(data, "userName", "name");
    OrChainIsFirstTruthy(n[0], n[1], n[2], Unknown);
    assert [n[0], n[1], n[2]] == n;
    var b := ProfileCandidates(data, "birthDate", "birthDate");
    OrChainIsFirstTruthy(b[0], b[1], b[2], Unknown);
    assert [b[0], b[1], b[2]] == b;
  }

  /** The two fields may come from different shapes of the export. */
  lemma ProfileFieldsResolveIndependently()
    ensures var data := Obj([
        ("name", Str("Jo")),
        ("Profile", Obj([("Profile Information", Obj([("ProfileMap", Obj([("birthDate", Str("2000-01-01"))]))]))]))]);
      ResolveProfile(data) == ProfileData(Str("Jo"), Str("2000-01-01"))
  {
  }

  // ---------------------------------------------------------------------
  // Contact keys
  // ---------------------------------------------------------------------

  const ChatPrefix: string := "Chat History with"

  /** The contact a thread label stands for: the first "Chat History with"
      and then the first ":" removed, trimmed, lower-cased. */
  function ContactKey(threadName: string): string {
    Lower(Trim(RemoveFirst(RemoveFirst(threadName, ChatPrefix), ":")))
  }

  /** A contact key has no upper-case letter and no surrounding whitespace. */
  lemma ContactKeyIsNormal(threadName: string)
    ensures var c := ContactKey(threadName);
      && (forall i :: 0 <= i < |c| ==> !IsUpper(c[i]))
      && (c != [] ==> !IsSpace(c[0]) && !IsSpace(c[|c| - 1]))
  {
    LowerTrimIsNormal(RemoveFirst(RemoveFirst(threadName, ChatPrefix), ":"));
  }

  /** A well-formed header "Chat History with <name>:" gives the trimmed,
      lower-cased name. */
  lemma ContactKeyOfHeader(name: string)
    requires ':' !in name
    ensures ContactKey(ChatPrefix + name + ":") == Lower(Trim(name))
  {
    assert ChatPrefix + name + ":" == ChatPrefix + (name + ":");
    RemoveLeading(ChatPrefix, name + ":");
    RemoveTrailingChar(name, ':');
  }

  /** Headers whose names differ only in letter case or surrounding
      whitespace denote the same contact. */
  lemma HeaderCaseVariantsMerge(n1: string, n2: string)
    requires ':' !in n1 && ':' !in n2
    requires Lower(Trim(n1)) == Lower(Trim(n2))
    ensures ContactKey(ChatPrefix + n1 + ":") == ContactKey(ChatPrefix + n2 + ":")
  {
    ContactKeyOfHeader(n1);
    ContactKeyOfHeader(n2);
  }

  /** An occurrence starts with the pattern's first character. */
  lemma OccursAtStart(s: string, p: string, j: int)
    requires |p| > 0 && OccursAt(s, p, j)
    ensures s[j] == p[0]
  {
    assert s[j..j + |p|][0] == s[j];
  }

  /** The prefix is matched case-sensitively: a label without a capital C
      keeps its words. */
  lemma PrefixNeedsCapitalC(threadName: string)
    requires 'C' !in threadName
    ensures RemoveFirst(threadName, ChatPrefix) == threadName
  {
    forall j | OccursAt(threadName, ChatPrefix, j) ensures false {
      OccursAtStart(threadName, ChatPrefix, j);
    }
    RemoveFirstSpec(threadName, ChatPrefix);
  }

  /** So a lower-case header "chat history with <name>:" is keyed by the
      whole lower-case label without its colon, not by the name. */
  lemma LowerCaseHeaderIsNotStripped(name: string)
    requires ':' !in name && 'C' !in name
    requires forall i :: 0 <= i < |name| ==> !IsUpper(name[i])
    requires name != [] && !IsSpace(name[|name| - 1])
    ensures ContactKey(LowerCasePrefix + name + ":") == LowerCasePrefix + name
  {
    var stem := LowerCasePrefix + name;
    LowerCasePrefixFacts();
    NoUpperAppend(LowerCasePrefix, name);
    assert ':' !in stem && 'C' !in stem + ":";
    PrefixNeedsCapitalC(stem + ":");
    RemoveTrailingChar(stem, ':');
    assert stem[0] == 'c' && stem[|stem| - 1] == name[|name| - 1];
    TrimOfTrimmed(stem);
    LowerOfLower(stem);
  }

  const LowerCasePrefix: string := "chat history with "

  lemma LowerCasePrefixFacts()
    ensures ':' !in LowerCasePrefix && 'C' !in LowerCasePrefix
    ensures forall i :: 0 <= i < |LowerCasePrefix| ==> !IsUpper(LowerCasePrefix[i])
    ensures LowerCasePrefix[0] == 'c'
  {
  }

  // ---------------------------------------------------------------------
  // Direct messages: specification
  // ---------------------------------------------------------------------

  /** How `msg.From && msg.From.toLowerCase() === myUsername` evaluates:
      reading `From` of null/undefined, or calling `toLowerCase` on a truthy
      non-string, throws. */
  datatype SenderCheck = IsSent | NotSent | Throws

  function CheckSender(msg: Json, myUsername: string): SenderCheck {
    if Nullish(msg) then Throws
    else
      var from := Get(msg, "From");
      if !Truthy(from) then NotSent
      else if from.Str? then (if Lower(from.s) == myUsername then IsSent else NotSent)
      else Throws
  }

  predicate ThreadThrows(msgs: seq<Json>, myUsername: string) {
    exists j :: 0 <= j < |msgs| && CheckSender(msgs[j], myUsername) == Throws
  }

  /** Some message of an array-valued thread raises a TypeError. */
  predicate AnyThreadThrows(threads: seq<(string, Json)>, myUsername: string) {
    exists i :: 0 <= i < |threads| && threads[i].1.Arr? && ThreadThrows(threads[i].1.items, myUsername)
  }

  /** The threads with each stem replaced by the contact it stands for. */
  function Contacts(threads: seq<(string, Json)>): seq<(string, Json)> {
    seq(|threads|, i requires 0 <= i < |threads| => (ContactKey(threads[i].0), threads[i].1))
  }

  /** The sent entries pushed while scanning one thread. */
  function SentIn(contact: string, msgs: seq<Json>, myUsername: string): seq<SentMessage>
    decreases |msgs|
  {
    if |msgs| == 0 then []
    else
      var last := msgs[|msgs| - 1];
      SentIn(contact, msgs[..|msgs| - 1], myUsername)
        + (if CheckSender(last, myUsername) == IsSent then [SentMessage(contact, Get(last, "Date"))] else [])
  }

  /** One step of the summary: an array thread adds its length to its
      contact's count, anything else leaves the summary alone. */
  function Tally(d: Record<int>, t: (string, Json)): Record<int> {
    if t.1.Arr? then Put(d, t.0, LookupOr(d, t.0, 0) + |t.1.items|) else d
  }

  /** `dmSummaryObj` after scanning the contact-labelled threads `cs` in
      order. */
  function SummaryOf(cs: seq<(string, Json)>): Record<int>
    decreases |cs|
  {
    if |cs| == 0 then [] else Tally(SummaryOf(cs[..|cs| - 1]), cs[|cs| - 1])
  }

  /** `sentMessagesList` after scanning the contact-labelled threads `cs` in
      order. */
  function SentOf(cs: seq<(string, Json)>, myUsername: string): seq<SentMessage>
    decreases |cs|
  {
    if |cs| == 0 then []
    else
      var last := cs[|cs| - 1];
      SentOf(cs[..|cs| - 1], myUsername)
        + (if last.1.Arr? then SentIn(last.0, last.1.items, myUsername) else [])
  }

  lemma SentInSnoc(contact: string, msgs: seq<Json>, m: Json, myUsername: string)
    ensures SentIn(contact, msgs + [m], myUsername)
      == SentIn(contact, msgs, myUsername)
        + (if CheckSender(m, myUsername) == IsSent then [SentMessage(contact, Get(m, "Date"))] else [])
  {
    assert (msgs + [m])[..|msgs|] == msgs;
  }

  lemma ContactsSnoc(threads: seq<(string, Json)>, t: (string, Json))
    ensures Contacts(threads + [t]) == Contacts(threads) + [(ContactKey(t.0), t.1)]
  {
    var a := Contacts(threads + [t]);
    var b := Contacts(threads) + [(ContactKey(t.0), t.1)];
    assert |a| == |b|;
    forall k | 0 <= k < |a| ensures a[k] == b[k] {
      if k < |threads| {
        assert (threads + [t])[k] == threads[k];
      }
    }
  }

  lemma SummaryOfSnoc(cs: seq<(string, Json)>, t: (string, Json))
    ensures SummaryOf(cs + [t]) == Tally(SummaryOf(cs), t)
  {
    var s := cs + [t];
    assert s[..|s| - 1] == cs;
  }

  lemma SentOfSnoc(cs: seq<(string, Json)>, t: (string, Json), myUsername: string)
    ensures SentOf(cs + [t], myUsername)
      == SentOf(cs, myUsername) + (if t.1.Arr? then SentIn(t.0, t.1.items, myUsername) else [])
  {
    assert (cs + [t])[..|cs|] == cs;
  }

  lemma ThreadThrowsSnoc(msgs: seq<Json>, m: Json, myUsername: string)
    ensures ThreadThrows(msgs + [m], myUsername) <==> ThreadThrows(msgs, myUsername) || CheckSender(m, myUsername) == Throws
  {
    var s := msgs + [m];
    if ThreadThrows(s, myUsername) && CheckSender(m, myUsername) != Throws {
      var j :| 0 <= j < |s| && CheckSender(s[j], myUsername) == Throws;
      assert s[j] == msgs[j];
    }
    if ThreadThrows(msgs, myUsername) {
      var j :| 0 <= j < |msgs| && CheckSender(msgs[j], myUsername) == Throws;
      assert s[j] == msgs[j];
    }
    assert s[|msgs|] == m;
  }

  lemma AnyThreadThrowsSnoc(threads: seq<(string, Json)>, t: (string, Json), myUsername: string)
    ensures AnyThreadThrows(threads + [t], myUsername)
      <==> AnyThreadThrows(threads, myUsername) || (t.1.Arr? && ThreadThrows(t.1.items, myUsername))
  {
    var s := threads + [t];
    if AnyThreadThrows(s, myUsername) && !(t.1.Arr? && ThreadThrows(t.1.items, myUsername)) {
      var i :| 0 <= i < |s| && s[i].1.Arr? && ThreadThrows(s[i].1.items, myUsername);
      assert s[i] == threads[i];
    }
    if AnyThreadThrows(threads, myUsername) {
      var i :| 0 <= i < |threads| && threads[i].1.Arr? && ThreadThrows(threads[i].1.items, myUsername);
      assert s[i] == threads[i];
    }
    assert s[|threads|] == t;
  }

  // ---------------------------------------------------------------------
  // Direct messages: the loop
  // ---------------------------------------------------------------------

  /** The inner `forEach` over one thread's messages
      (dataProcessing.ts:71-75), pushing onto `sent`. */
  method CollectSent(contact: string, msgs: seq<Json>, myUsername: string, sent: seq<SentMessage>)
    returns (r: Result<seq<SentMessage>>)
    ensures r.Err? <==> ThreadThrows(msgs, myUsername)
    ensures r.Ok? ==> r.value == sent + SentIn(contact, msgs, myUsername)
  {
    var sentMessagesList := sent;
    var j := 0;
    while j < |msgs|
      invariant 0 <= j <= |msgs|
      invariant sentMessagesList == sent + SentIn(contact, msgs[..j], myUsername)
      invariant !ThreadThrows(msgs[..j], myUsername)
    {
      var msg := msgs[j];
      assert msgs[..j + 1] == msgs[..j] + [msg];
      ThreadThrowsSnoc(msgs[..j], msg, myUsername);
      SentInSnoc(contact, msgs[..j], msg, myUsername);
      var check := CheckSender(msg, myUsername);
      if check == Throws {
        assert ThreadThrows(msgs, myUsername) by {
          assert msgs[j] == msg;
        }
        return Err(TypeError(if Nullish(msg) then "Cannot read properties of null (reading 'From')"
                             else "msg.From.toLowerCase is not a function"));
      }
      if check == IsSent {
        sentMessagesList := sentMessagesList + [SentMessage(contact, Get(msg, "Date"))];
      }
      j := j + 1;
    }
    assert msgs[..j] == msgs;
    return Ok(sentMessagesList);
  }

  /** The body of the `forEach` callback once the contact is known
      (dataProcessing.ts:68-75), applied to the summary and sent list built
      so far. */
  method VisitContact(contact: string, messages: Json, myUsername: string,
                      dmSummaryObj: Record<int>, sentMessagesList: seq<SentMessage>)
    returns (r: Result<(Record<int>, seq<SentMessage>)>)
    ensures r.Err? <==> messages.Arr? && ThreadThrows(messages.items, myUsername)
    ensures r.Ok? ==> r.value.0 == Tally(dmSummaryObj, (contact, messages))
    ensures r.Ok? ==> r.value.1 == sentMessagesList + (if messages.Arr? then SentIn(contact, messages.items, myUsername) else [])
  {
    if messages.Arr? {
      var summary := Put(dmSummaryObj, contact, LookupOr(dmSummaryObj, contact, 0) + |messages.items|);
      var sent := CollectSent(contact, messages.items, myUsername, sentMessagesList);
      if sent.Err? {
        return Err(sent.error);
      }
      return Ok((summary, sent.value));
    }
    assert sentMessagesList + [] == sentMessagesList;
    return Ok((dmSummaryObj, sentMessagesList));
  }

  /** The `forEach` callback for one thread (dataProcessing.ts:62-76). */
  method VisitThread(threadName: string, messages: Json, myUsername: string,
                     dmSummaryObj: Record<int>, sentMessagesList: seq<SentMessage>)
    returns (r: Result<(Record<int>, seq<SentMessage>)>)
    ensures r.Err? <==> messages.Arr? && ThreadThrows(messages.items, myUsername)
    ensures r.Ok? ==> r.value.0 == Tally(dmSummaryObj, (ContactKey(threadName), messages))
    ensures r.Ok? ==>
      r.value.1 == sentMessagesList + (if messages.Arr? then SentIn(ContactKey(threadName), messages.items, myUsername) else [])
  {
    var contact := ContactKey(threadName);
    r := VisitContact(contact, messages, myUsername, dmSummaryObj, sentMessagesList);
  }

  /** The `forEach` over the thread labels (dataProcessing.ts:61-77). */
  method ProcessDirectMessages(dmDataRaw: Json, myUsername: string) returns (r: Result<DmData>)
    ensures r.Err? <==> AnyThreadThrows(Entries(dmDataRaw), myUsername)
    ensures r.Ok? ==> r.value == DmData(SummaryOf(Contacts(Entries(dmDataRaw))), SentOf(Contacts(Entries(dmDataRaw)), myUsername))
  {
    var threads := Entries(dmDataRaw);
    var dmSummaryObj: Record<int> := [];
    var sentMessagesList: seq<SentMessage> := [];
    var i := 0;
    while i < |threads|
      invariant 0 <= i <= |threads|
      invariant dmSummaryObj == SummaryOf(Contacts(threads[..i]))
      invariant sentMessagesList == SentOf(Contacts(threads[..i]), myUsername)
      invariant !AnyThreadThrows(threads[..i], myUsername)
    {
      var t := threads[i];
      var visited := VisitThread(t.0, t.1, myUsername, dmSummaryObj, sentMessagesList);
      ThreadStep(threads, i, myUsername);
      if visited.Err? {
        AnyThreadThrowsPrefix(threads, i + 1, myUsername);
        return Err(visited.error);
      }
      dmSummaryObj, sentMessagesList := visited.value.0, visited.value.1;
      i := i + 1;
    }
    assert threads[..i] == threads;
    return Ok(DmData(dmSummaryObj, sentMessagesList));
  }

  /** What handling thread `i` adds to the results for the threads before it. */
  lemma ThreadStep(threads: seq<(string, Json)>, i: nat, myUsername: string)
    requires i < |threads|
    ensures var t := threads[i];
      var c := (ContactKey(t.0), t.1);
      && SummaryOf(Contacts(threads[..i + 1])) == Tally(SummaryOf(Contacts(threads[..i])), c)
      && SentOf(Contacts(threads[..i + 1]), myUsername) == SentOf(Contacts(threads[..i]), myUsername) + (if t.1.Arr? then SentIn(c.0, t.1.items, myUsername) else [])
      && (AnyThreadThrows(threads[..i + 1], myUsername) <==> AnyThreadThrows(threads[..i], myUsername) || (t.1.Arr? && ThreadThrows(t.1.items, myUsername)))
  {
    var t := threads[i];
    assert threads[..i + 1] == threads[..i] + [t];
    AnyThreadThrowsSnoc(threads[..i], t, myUsername);
    ContactsSnoc(threads[..i], t);
    SummaryOfSnoc(Contacts(threads[..i]), (ContactKey(t.0), t.1));
    SentOfSnoc(Contacts(threads[..i]), (ContactKey(t.0), t.1), myUsername);
  }

  /** A throwing thread in a prefix throws in the whole list. */
  lemma AnyThreadThrowsPrefix(threads: seq<(string, Json)>, n: nat, myUsername: string)
    requires n <= |threads|
    requires AnyThreadThrows(threads[..n], myUsername)
    ensures AnyThreadThrows(threads, myUsername)
  {
    var i :| 0 <= i < n && threads[..n][i].1.Arr? && ThreadThrows(threads[..n][i].1.items, myUsername);
    assert threads[..n][i] == threads[i];
  }

  // ---------------------------------------------------------------------
  // The whole normaliser
  // ---------------------------------------------------------------------

  /** `data["Direct Messages"]?.["Chat History"]?.ChatHistory || {}` */
  function ChatHistoryOf(data: Json): Json {
    Or(Path(data, ["Direct Messages", "Chat History", "ChatHistory"]), Obj([]))
  }

  /** The thread labels and their values, in `Object.keys` order. */
  function Threads(data: Json): seq<(string, Json)> {
    Entries(ChatHistoryOf(data))
  }

  /** `data.Activity?.["Login History"]?.["LoginHistoryList"] || []` */
  function LoginDataOf(data: Json): Json {
    Or(Path(data, ["Activity", "Login History", "LoginHistoryList"]), Arr([]))
  }

  /** `processTikTokData(data, myUsername)`; a TypeError when `data` is null
      or undefined (the unguarded `data["Direct Messages"]`) or when a
      message is null or has a truthy non-string `From`. */
  method ProcessTikTokData(data: Json, myUsername: string) returns (r: Result<ProcessedData>)
    ensures r.Err? <==> Nullish(data) || AnyThreadThrows(Threads(data), myUsername)
    ensures r.Ok? ==> r.value.profileData == ResolveProfile(data)
    ensures r.Ok? ==> r.value.dmData == DmData(SummaryOf(Contacts(Threads(data))), SentOf(Contacts(Threads(data)), myUsername))
    ensures r.Ok? ==> r.value.loginData == LoginDataOf(data)
    ensures r.Ok? ==> r.value.shoppingData == Get(data, "Tiktok Shopping")
  {
    var profileData := ResolveProfile(data);
    if Nullish(data) {
      return Err(TypeError("Cannot read properties of " + (if data.Null? then "null" else "undefined")));
    }
    var dmDataRaw := ChatHistoryOf(data);
    var dm := ProcessDirectMessages(dmDataRaw, myUsername);
    if dm.Err? {
      return Err(dm.error);
    }
    var loginData := LoginDataOf(data);
    var shoppingData := Get(data, "Tiktok Shopping");
    return Ok(ProcessedData(profileData, dm.value, loginData, shoppingData));
  }

  // ---------------------------------------------------------------------
  // Properties of the summary
  // ---------------------------------------------------------------------

  /** Reference definition: the total length of the array threads labelled
      `c`. */
  function CountFor(cs: seq<(string, Json)>, c: string): nat
    decreases |cs|
  {
    if |cs| == 0 then 0
    else (if cs[0].1.Arr? && cs[0].0 == c then |cs[0].1.items| else 0) + CountFor(cs[1..], c)
  }

  lemma {:induction false} CountForSnoc(cs: seq<(string, Json)>, t: (string, Json), c: string)
    ensures CountFor(cs + [t], c) == CountFor(cs, c) + (if t.1.Arr? && t.0 == c then |t.1.items| else 0)
    decreases |cs|
  {
    if |cs| > 0 {
      assert (cs + [t])[1..] == cs[1..] + [t];
      CountForSnoc(cs[1..], t, c);
    }
  }

  /** One step of the summary adds the thread's length to its own contact
      and to no other. */
  lemma TallyLookup(d: Record<int>, t: (string, Json), c: string)
    ensures LookupOr(Tally(d, t), c, 0) == LookupOr(d, c, 0) + (if t.1.Arr? && t.0 == c then |t.1.items| else 0)
  {
    if t.1.Arr? {
      LookupPut(d, t.0, LookupOr(d, t.0, 0) + |t.1.items|, c, 0);
    }
  }

  /** One step of the summary adds the thread's contact as a key, if the
      thread is an array, and no other key. */
  lemma TallyHasKey(d: Record<int>, t: (string, Json), c: string)
    ensures HasKey(Tally(d, t), c) <==> HasKey(d, c) || (t.1.Arr? && t.0 == c)
  {
    if t.1.Arr? {
      HasKeyPut(d, t.0, LookupOr(d, t.0, 0) + |t.1.items|, c);
    }
  }

  /** Merging is additive: each contact's count is the sum of the lengths of
      all its array threads. */
  lemma {:induction false} SummaryCountIsSum(cs: seq<(string, Json)>, c: string)
    ensures LookupOr(SummaryOf(cs), c, 0) == CountFor(cs, c)
    decreases |cs|
  {
    if |cs| > 0 {
      var init := cs[..|cs| - 1];
      var last := cs[|cs| - 1];
      assert init + [last] == cs;
      SummaryCountIsSum(init, c);
      CountForSnoc(init, last, c);
      TallyLookup(SummaryOf(init), last, c);
    }
  }

  /** Some array thread in `cs` is labelled `c`. */
  predicate HasArrayThread(cs: seq<(string, Json)>, c: string) {
    exists i :: 0 <= i < |cs| && cs[i].1.Arr? && cs[i].0 == c
  }

  lemma HasArrayThreadSnoc(cs: seq<(string, Json)>, t: (string, Json), c: string)
    ensures HasArrayThread(cs + [t], c) <==> HasArrayThread(cs, c) || (t.1.Arr? && t.0 == c)
  {
    var s := cs + [t];
    if HasArrayThread(s, c) && !(t.1.Arr? && t.0 == c) {
      var i :| 0 <= i < |s| && s[i].1.Arr? && s[i].0 == c;
      assert s[i] == cs[i];
    }
    if HasArrayThread(cs, c) {
      var i :| 0 <= i < |cs| && cs[i].1.Arr? && cs[i].0 == c;
      assert s[i] == cs[i];
    }
    assert s[|cs|] == t;
  }

  /** A contact is a key of the summary exactly when some array thread is
      labelled with it. */
  lemma {:induction false} SummaryKeyIff(cs: seq<(string, Json)>, c: string)
    ensures HasKey(SummaryOf(cs), c) <==> HasArrayThread(cs, c)
    decreases |cs|
  {
    if |cs| > 0 {
      var init := cs[..|cs| - 1];
      var last := cs[|cs| - 1];
      assert init + [last] == cs;
      SummaryKeyIff(init, c);
      TallyHasKey(SummaryOf(init), last, c);
      HasArrayThreadSnoc(init, last, c);
    }
  }

  /** For the threads of an export: a contact is a key of the summary
      exactly when some array thread's label normalises to it. */
  lemma SummaryKeysAreContacts(threads: seq<(string, Json)>, c: string)
    ensures HasKey(SummaryOf(Contacts(threads)), c)
      <==> exists i :: 0 <= i < |threads| && threads[i].1.Arr? && ContactKey(threads[i].0) == c
  {
    var cs := Contacts(threads);
    SummaryKeyIff(cs, c);
    if exists i :: 0 <= i < |threads| && threads[i].1.Arr? && ContactKey(threads[i].0) == c {
      var i :| 0 <= i < |threads| && threads[i].1.Arr? && ContactKey(threads[i].0) == c;
      assert cs[i].1.Arr? && cs[i].0 == c;
    }
    if HasArrayThread(cs, c) {
      var i :| 0 <= i < |cs| && cs[i].1.Arr? && cs[i].0 == c;
      assert threads[i].1.Arr? && ContactKey(threads[i].0) == c;
    }
  }

  /** The summary is a proper object: no contact appears twice. */
  lemma {:induction false} SummaryKeysDistinct(cs: seq<(string, Json)>)
    ensures DistinctKeys(SummaryOf(cs))
    decreases |cs|
  {
    if |cs| > 0 {
      var init := cs[..|cs| - 1];
      var last := cs[|cs| - 1];
      SummaryKeysDistinct(init);
      if last.1.Arr? {
        PutDistinct(SummaryOf(init), last.0, LookupOr(SummaryOf(init), last.0, 0) + |last.1.items|);
      }
    }
  }

  function SumValues(d: Record<int>): int
    decreases |d|
  {
    if |d| == 0 then 0 else d[0].1 + SumValues(d[1..])
  }

  lemma {:induction false} SumValuesAppend(a: Record<int>, b: Record<int>)
    ensures SumValues(a + b) == SumValues(a) + SumValues(b)
    decreases |a|
  {
    if |a| > 0 {
      assert (a + b)[1..] == a[1..] + b;
      SumValuesAppend(a[1..], b);
    } else {
      assert a + b == b;
    }
  }

  lemma SumValuesPut(d: Record<int>, k: string, v: int)
    ensures SumValues(Put(d, k, v)) == SumValues(d) - LookupOr(d, k, 0) + v
  {
    var i := KeyIndex(d, k);
    if i == |d| {
      SumValuesAppend(d, [(k, v)]);
      assert SumValues([(k, v)]) == v + SumValues([]);
    } else {
      assert d == d[..i] + [d[i]] + d[i + 1..];
      assert Put(d, k, v) == d[..i] + [(k, v)] + d[i + 1..];
      SumValuesAppend(d[..i] + [d[i]], d[i + 1..]);
      SumValuesAppend(d[..i], [d[i]]);
      SumValuesAppend(d[..i] + [(k, v)], d[i + 1..]);
      SumValuesAppend(d[..i], [(k, v)]);
      assert SumValues([(k, v)]) == v + SumValues([]);
      assert SumValues([d[i]]) == d[i].1 + SumValues([]);
    }
  }

  /** Reference definition: the number of messages in all array threads. */
  function TotalMessages(threads: seq<(string, Json)>): nat
    decreases |threads|
  {
    if |threads| == 0 then 0
    else (if threads[0].1.Arr? then |threads[0].1.items| else 0) + TotalMessages(threads[1..])
  }

  lemma {:induction false} TotalMessagesSnoc(threads: seq<(string, Json)>, t: (string, Json))
    ensures TotalMessages(threads + [t]) == TotalMessages(threads) + (if t.1.Arr? then |t.1.items| else 0)
    decreases |threads|
  {
    if |threads| > 0 {
      assert (threads + [t])[1..] == threads[1..] + [t];
      TotalMessagesSnoc(threads[1..], t);
    }
  }

  /** No message is lost or counted twice by the merge: the counts add up to
      the number of messages in all array threads. */
  lemma {:induction false} SummaryCountsAllMessages(cs: seq<(string, Json)>)
    ensures SumValues(SummaryOf(cs)) == TotalMessages(cs)
    decreases |cs|
  {
    if |cs| > 0 {
      var init := cs[..|cs| - 1];
      var last := cs[|cs| - 1];
      assert init + [last] == cs;
      SummaryCountsAllMessages(init);
      TotalMessagesSnoc(init, last);
      if last.1.Arr? {
        SumValuesPut(SummaryOf(init), last.0, LookupOr(SummaryOf(init), last.0, 0) + |last.1.items|);
      }
    }
  }

  /** Threads with the same values, whatever their labels, hold the same
      number of messages. */
  lemma {:induction false} TotalMessagesIgnoresLabels(a: seq<(string, Json)>, b: seq<(string, Json)>)
    requires |a| == |b| && forall i :: 0 <= i < |a| ==> a[i].1 == b[i].1
    ensures TotalMessages(a) == TotalMessages(b)
    decreases |a|
  {
    if |a| > 0 {
      assert a[0].1 == b[0].1;
      TotalMessagesIgnoresLabels(a[1..], b[1..]);
    }
  }

  /** Relabelling does not change which threads are arrays, nor their
      lengths. */
  lemma ContactsKeepMessages(threads: seq<(string, Json)>)
    ensures TotalMessages(Contacts(threads)) == TotalMessages(threads)
  {
    TotalMessagesIgnoresLabels(Contacts(threads), threads);
  }

  // ---------------------------------------------------------------------
  // Properties of the sent-message list
  // ---------------------------------------------------------------------

  /** A message the owner sent: a truthy string `From` whose lower-case
      form is the given username. */
  predicate IsOwnMessage(msg: Json, myUsername: string) {
    var from := Get(msg, "From");
    Truthy(from) && from.Str? && Lower(from.s) == myUsername
  }

  /** Reference definition: the owner's messages, thread by thread and
      message by message, each tagged with its contact and date. */
  function OwnMessagesIn(contact: string, msgs: seq<Json>, myUsername: string): seq<SentMessage>
    decreases |msgs|
  {
    if |msgs| == 0 then []
    else
      (if IsOwnMessage(msgs[0], myUsername) then [SentMessage(contact, Get(msgs[0], "Date"))] else [])
      + OwnMessagesIn(contact, msgs[1..], myUsername)
  }

  function OwnMessages(cs: seq<(string, Json)>, myUsername: string): seq<SentMessage>
    decreases |cs|
  {
    if |cs| == 0 then []
    else
      (if cs[0].1.Arr? then OwnMessagesIn(cs[0].0, cs[0].1.items, myUsername) else [])
      + OwnMessages(cs[1..], myUsername)
  }

  lemma {:induction false} OwnMessagesInSnoc(contact: string, msgs: seq<Json>, m: Json, myUsername: string)
    ensures OwnMessagesIn(contact, msgs + [m], myUsername)
      == OwnMessagesIn(contact, msgs, myUsername)
        + (if IsOwnMessage(m, myUsername) then [SentMessage(contact, Get(m, "Date"))] else [])
    decreases |msgs|
  {
    if |msgs| > 0 {
      assert (msgs + [m])[1..] == msgs[1..] + [m];
      OwnMessagesInSnoc(contact, msgs[1..], m, myUsername);
    }
  }

  lemma {:induction false} SentInIsOwnMessages(contact: string, msgs: seq<Json>, myUsername: string)
    ensures SentIn(contact, msgs, myUsername) == OwnMessagesIn(contact, msgs, myUsername)
    decreases |msgs|
  {
    if |msgs| > 0 {
      var init := msgs[..|msgs| - 1];
      var last := msgs[|msgs| - 1];
      assert init + [last] == msgs;
      SentInIsOwnMessages(contact, init, myUsername);
      OwnMessagesInSnoc(contact, init, last, myUsername);
      assert (CheckSender(last, myUsername) == IsSent) == IsOwnMessage(last, myUsername);
    }
  }

  lemma {:induction false} OwnMessagesSnoc(cs: seq<(string, Json)>, t: (string, Json), myUsername: string)
    ensures OwnMessages(cs + [t], myUsername)
      == OwnMessages(cs, myUsername)
        + (if t.1.Arr? then OwnMessagesIn(t.0, t.1.items, myUsername) else [])
    decreases |cs|
  {
    if |cs| > 0 {
      var s := cs + [t];
      assert s[0] == cs[0];
      assert s[1..] == cs[1..] + [t];
      OwnMessagesSnoc(cs[1..], t, myUsername);
    } else {
      assert cs + [t] == [t];
    }
  }

  /** `sentMessagesList` is exactly the owner's messages in thread-then-
      message order. */
  lemma {:induction false} SentIsOwnMessages(cs: seq<(string, Json)>, myUsername: string)
    ensures SentOf(cs, myUsername) == OwnMessages(cs, myUsername)
    decreases |cs|
  {
    if |cs| > 0 {
      var init := cs[..|cs| - 1];
      var last := cs[|cs| - 1];
      assert init + [last] == cs;
      SentIsOwnMessages(init, myUsername);
      OwnMessagesSnoc(init, last, myUsername);
      if last.1.Arr? {
        SentInIsOwnMessages(last.0, last.1.items, myUsername);
      }
    }
  }

  /** The number of entries in a sent list tagged with contact `c`. */
  function CountContact(sent: seq<SentMessage>, c: string): nat
    decreases |sent|
  {
    if |sent| == 0 then 0 else (if sent[0].contact == c then 1 else 0) + CountContact(sent[1..], c)
  }

  lemma {:induction false} CountContactAppend(a: seq<SentMessage>, b: seq<SentMessage>, c: string)
    ensures CountContact(a + b, c) == CountContact(a, c) + CountContact(b, c)
    decreases |a|
  {
    if |a| > 0 {
      assert (a + b)[0] == a[0];
      assert (a + b)[1..] == a[1..] + b;
      CountContactAppend(a[1..], b, c);
    } else {
      assert a + b == b;
    }
  }

  lemma {:induction false} SentInBounded(contact: string, msgs: seq<Json>, myUsername: string, c: string)
    ensures CountContact(SentIn(contact, msgs, myUsername), c) <= if contact == c then |msgs| else 0
    decreases |msgs|
  {
    if |msgs| > 0 {
      var init := msgs[..|msgs| - 1];
      var last := msgs[|msgs| - 1];
      var tail := if CheckSender(last, myUsername) == IsSent then [SentMessage(contact, Get(last, "Date"))] else [];
      SentInBounded(contact, init, myUsername, c);
      CountContactAppend(SentIn(contact, init, myUsername), tail, c);
      assert CountContact(tail, c) <= 1;
      assert CountContact(tail, c) == 1 ==> contact == c;
    }
  }

  lemma {:induction false} SentInContact(contact: string, msgs: seq<Json>, myUsername: string)
    ensures forall m :: m in SentIn(contact, msgs, myUsername) ==> m.contact == contact
    decreases |msgs|
  {
    if |msgs| > 0 {
      SentInContact(contact, msgs[..|msgs| - 1], myUsername);
    }
  }

  /** No contact has more sent entries than it has messages in the
      summary. */
  lemma {:induction false} SentBoundedBySummary(cs: seq<(string, Json)>, myUsername: string, c: string)
    ensures CountContact(SentOf(cs, myUsername), c) <= LookupOr(SummaryOf(cs), c, 0)
    decreases |cs|
  {
    if |cs| > 0 {
      var init := cs[..|cs| - 1];
      var last := cs[|cs| - 1];
      SentBoundedBySummary(init, myUsername, c);
      if last.1.Arr? {
        var k := last.0;
        var prev := SummaryOf(init);
        var v := LookupOr(prev, k, 0) + |last.1.items|;
        var s := SentIn(k, last.1.items, myUsername);
        assert SentOf(cs, myUsername) == SentOf(init, myUsername) + s;
        assert SummaryOf(cs) == Put(prev, k, v);
        SentInBounded(k, last.1.items, myUsername, c);
        CountContactAppend(SentOf(init, myUsername), s, c);
        LookupPut(prev, k, v, c, 0);
      } else {
        assert SentOf(cs, myUsername) == SentOf(init, myUsername);
      }
    }
  }

  /** Every sent entry's contact is a key of the summary. */
  lemma {:induction false} SentContactsAreKeys(cs: seq<(string, Json)>, myUsername: string)
    ensures forall m :: m in SentOf(cs, myUsername) ==> HasKey(SummaryOf(cs), m.contact)
    decreases |cs|
  {
    if |cs| > 0 {
      var init := cs[..|cs| - 1];
      var last := cs[|cs| - 1];
      SentContactsAreKeys(init, myUsername);
      if last.1.Arr? {
        var k := last.0;
        var prev := SummaryOf(init);
        var v := LookupOr(prev, k, 0) + |last.1.items|;
        assert SentOf(cs, myUsername) == SentOf(init, myUsername) + SentIn(k, last.1.items, myUsername);
        assert SummaryOf(cs) == Put(prev, k, v);
        SentInContact(k, last.1.items, myUsername);
        forall m | m in SentOf(cs, myUsername) ensures HasKey(SummaryOf(cs), m.contact) {
          HasKeyPut(prev, k, v, m.contact);
        }
      } else {
        assert SentOf(cs, myUsername) == SentOf(init, myUsername);
      }
    }
  }

  /** The username is compared as given: one containing an upper-case letter
      never matches a lower-cased `From`, so no message counts as sent. */
  lemma UpperCaseUsernameSendsNothing(cs: seq<(string, Json)>, myUsername: string)
    requires exists i :: 0 <= i < |myUsername| && IsUpper(myUsername[i])
    ensures SentOf(cs, myUsername) == []
  {
    SentIsOwnMessages(cs, myUsername);
    NoOwnMessages(cs, myUsername);
  }

  lemma {:induction false} NoOwnMessages(cs: seq<(string, Json)>, myUsername: string)
    requires exists i :: 0 <= i < |myUsername| && IsUpper(myUsername[i])
    ensures OwnMessages(cs, myUsername) == []
    decreases |cs|
  {
    if |cs| > 0 {
      NoOwnMessages(cs[1..], myUsername);
      if cs[0].1.Arr? {
        NoOwnMessagesIn(cs[0].0, cs[0].1.items, myUsername);
      }
    }
  }

  lemma {:induction false} NoOwnMessagesIn(contact: string, msgs: seq<Json>, myUsername: string)
    requires exists i :: 0 <= i < |myUsername| && IsUpper(myUsername[i])
    ensures OwnMessagesIn(contact, msgs, myUsername) == []
    decreases |msgs|
  {
    if |msgs| > 0 {
      NoOwnMessagesIn(contact, msgs[1..], myUsername);
      var from := Get(msgs[0], "From");
      if from.Str? {
        LowerHasNoUpper(from.s);
      }
      assert !IsOwnMessage(msgs[0], myUsername);
    }
  }

  /** Threads that are not arrays contribute nothing: with no array thread
      the summary and the sent list are empty. */
  lemma {:induction false} NoArrayThreadsGiveNothing(cs: seq<(string, Json)>, myUsername: string)
    requires forall i :: 0 <= i < |cs| ==> !cs[i].1.Arr?
    ensures SummaryOf(cs) == [] && SentOf(cs, myUsername) == []
    decreases |cs|
  {
    if |cs| > 0 {
      NoArrayThreadsGiveNothing(cs[..|cs| - 1], myUsername);
    }
  }

  /** Without a chat-history section there are no threads, so no contacts
      and no sent messages. */
  lemma MissingDirectMessagesGiveNothing(data: Json, myUsername: string)
    requires !Truthy(Path(data, ["Direct Messages", "Chat History", "ChatHistory"]))
    ensures Threads(data) == []
    ensures SummaryOf(Contacts(Threads(data))) == [] && SentOf(Contacts(Threads(data)), myUsername) == []
  {
  }
}
