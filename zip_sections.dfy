/**
 * The ZIP import: the text members of an archive are collected into a
 * name-to-text record, and four sections are picked from it by
 * case-insensitive substring match on the member name, to form a record
 * shaped like the JSON export.
 */
module ZipSections {
  import opened JsValues
  import opened Records
  import opened JsStrings
  import opened DataProcessing
  import Dashboard

  /** An archive member as the unzipper lists it. */
  datatype ZipEntry = ZipEntry(name: string, dir: bool, text: string)

  const ProfileNeedle: string := "profile info.txt"
  const MessagesNeedle: string := "direct messages.txt"
  const OrdersNeedle: string := "order history.txt"
  const LoginsNeedle: string := "login history.txt"

  // ---------------------------------------------------------------------
  // The content record
  // ---------------------------------------------------------------------

  /** The (name, text) pairs of the members that are files, in the order
      their reads complete. */
  function FilePairs(entries: seq<ZipEntry>): seq<(string, string)>
    decreases |entries|
  {
    if |entries| == 0 then []
    else
      var last := entries[|entries| - 1];
      FilePairs(entries[..|entries| - 1]) + (if last.dir then [] else [(last.name, last.text)])
  }

  /** `fileContents` once every read has completed. */
  function FileContents(entries: seq<ZipEntry>): Record<string> {
    LastByKey(FilePairs(entries))
  }

  /** The loop that fills `fileContents`, with the members in completion
      order; directories are skipped. */
  method ReadFiles(entries: seq<ZipEntry>) returns (fileContents: Record<string>)
    ensures fileContents == FileContents(entries)
  {
    fileContents := [];
    var i := 0;
    while i < |entries|
      invariant 0 <= i <= |entries|
      invariant fileContents == LastByKey(FilePairs(entries[..i]))
    {
      var fileObj := entries[i];
      assert entries[..i + 1][..i] == entries[..i];
      assert entries[..i + 1][i] == fileObj;
      if !fileObj.dir {
        assert FilePairs(entries[..i + 1]) == FilePairs(entries[..i]) + [(fileObj.name, fileObj.text)];
        LastByKeySnoc(FilePairs(entries[..i]), (fileObj.name, fileObj.text));
        fileContents := Put(fileContents, fileObj.name, fileObj.text);
      } else {
        assert FilePairs(entries[..i]) + [] == FilePairs(entries[..i]);
        assert FilePairs(entries[..i + 1]) == FilePairs(entries[..i]);
      }
      i := i + 1;
    }
    assert entries[..i] == entries;
  }

  /** Member `i` is a file named `k`. */
  predicate IsFileNamed(entries: seq<ZipEntry>, i: int, k: string) {
    0 <= i < |entries| && !entries[i].dir && entries[i].name == k
  }

  /** Every pair comes from a file member, and every file member gives a
      pair. */
  lemma {:induction false} FilePairsSpec(entries: seq<ZipEntry>, k: string)
    ensures Mentions(FilePairs(entries), k) <==> exists i :: IsFileNamed(entries, i, k)
    ensures forall j :: 0 <= j < |FilePairs(entries)| && FilePairs(entries)[j].0 == k ==>
      exists i :: IsFileNamed(entries, i, k) && FilePairs(entries)[j].1 == entries[i].text
    decreases |entries|
  {
    if |entries| > 0 {
      var init, last := entries[..|entries| - 1], entries[|entries| - 1];
      var ps := FilePairs(init);
      var extra := if last.dir then [] else [(last.name, last.text)];
      FilePairsSpec(init, k);
      assert FilePairs(entries) == ps + extra;
      forall i | IsFileNamed(init, i, k) ensures IsFileNamed(entries, i, k) {
        assert entries[i] == init[i];
      }
      if Mentions(ps + extra, k) {
        var j :| 0 <= j < |ps + extra| && (ps + extra)[j].0 == k;
        if j < |ps| {
          assert (ps + extra)[j] == ps[j];
          assert Mentions(ps, k);
        } else {
          assert IsFileNamed(entries, |entries| - 1, k);
        }
      }
      if exists i :: IsFileNamed(entries, i, k) {
        var i :| IsFileNamed(entries, i, k);
        if i < |init| {
          assert IsFileNamed(init, i, k);
          var j :| 0 <= j < |ps| && ps[j].0 == k;
          assert (ps + extra)[j] == ps[j];
        } else {
          assert (ps + extra)[|ps|] == (k, last.text);
        }
      }
      forall j | 0 <= j < |ps + extra| && (ps + extra)[j].0 == k
        ensures exists i :: IsFileNamed(entries, i, k) && (ps + extra)[j].1 == entries[i].text
      {
        if j < |ps| {
          assert (ps + extra)[j] == ps[j];
          var i :| IsFileNamed(init, i, k) && ps[j].1 == init[i].text;
          assert IsFileNamed(entries, i, k) && entries[i] == init[i];
        } else {
          assert IsFileNamed(entries, |entries| - 1, k);
        }
      }
    }
  }

  /** Only files enter the record, and each file's name does. */
  lemma DirectoriesAreSkipped(entries: seq<ZipEntry>, k: string)
    ensures HasKey(FileContents(entries), k) <==> exists i :: IsFileNamed(entries, i, k)
  {
    FilePairsSpec(entries, k);
    LastByKeySpec(FilePairs(entries), k, "");
  }

  /** Member names are the keys of `zip.files`, so they are distinct; then
      each file's text is stored under its name. */
  lemma FilesKeepTheirText(entries: seq<ZipEntry>, i: nat)
    requires forall a, b :: 0 <= a < b < |entries| ==> entries[a].name != entries[b].name
    requires i < |entries| && !entries[i].dir
    ensures LookupOr(FileContents(entries), entries[i].name, "") == entries[i].text
  {
    var k := entries[i].name;
    var ps := FilePairs(entries);
    FilePairsSpec(entries, k);
    assert IsFileNamed(entries, i, k);
    LastByKeySpec(ps, k, "");
    var j :| IsLastOf(ps, j, k) && ps[j].1 == LookupOr(FileContents(entries), k, "");
    var i' :| IsFileNamed(entries, i', k) && ps[j].1 == entries[i'].text;
    assert i' == i;
  }

  lemma ContentsAreDistinct(entries: seq<ZipEntry>)
    ensures DistinctKeys(FileContents(entries))
  {
    LastByKeyDistinct(FilePairs(entries));
  }

  // ---------------------------------------------------------------------
  // Section selection
  // ---------------------------------------------------------------------

  /** `key.toLowerCase().includes(needle)` */
  predicate NameMatches(key: string, needle: string) {
    Includes(Lower(key), needle)
  }

  /** `Object.keys(fileContents).find(key => NameMatches(key, needle))` */
  function FindKey(keys: seq<string>, needle: string): Option<string>
    decreases |keys|
  {
    if |keys| == 0 then None
    else if NameMatches(keys[0], needle) then Some(keys[0])
    else FindKey(keys[1..], needle)
  }

  /** Key `i` matches and no earlier key does. */
  predicate IsFirstMatch(keys: seq<string>, i: int, needle: string) {
    && 0 <= i < |keys| && NameMatches(keys[i], needle)
    && forall j :: 0 <= j < i ==> !NameMatches(keys[j], needle)
  }

  /** `find` gives the first matching key, and nothing when no key
      matches. */
  lemma {:induction false} FindKeySpec(keys: seq<string>, needle: string)
    ensures FindKey(keys, needle).None? <==> forall i :: 0 <= i < |keys| ==> !NameMatches(keys[i], needle)
    ensures FindKey(keys, needle).Some? ==>
      exists i :: IsFirstMatch(keys, i, needle) && keys[i] == FindKey(keys, needle).value
    decreases |keys|
  {
    if |keys| > 0 && !NameMatches(keys[0], needle) {
      var rest := keys[1..];
      FindKeySpec(rest, needle);
      forall i | 1 <= i < |keys| ensures keys[i] == rest[i - 1] { }
      if FindKey(keys, needle).Some? {
        var i :| IsFirstMatch(rest, i, needle) && rest[i] == FindKey(keys, needle).value;
        assert IsFirstMatch(keys, i + 1, needle);
      }
    } else if |keys| > 0 {
      assert IsFirstMatch(keys, 0, needle);
    }
  }

  /** The text of a section: the content under the first matching key when
      that key is truthy, and "" otherwise. Both spellings in the source,
      `find(...) || ""` followed by a truthiness test and `find(...) ? ...
      : ""`, amount to this. */
  function Section(fileContents: Record<string>, needle: string): string {
    match FindKey(Keys(fileContents), needle)
    case None => ""
    case Some(key) => if key != "" then LookupOr(fileContents, key, "") else ""
  }

  /** A section is the content of the first member, in record order, whose
      name matches, and "" when none does. */
  lemma SectionSpec(fileContents: Record<string>, needle: string)
    requires DistinctKeys(fileContents) && needle != ""
    ensures (forall i :: 0 <= i < |fileContents| ==> !NameMatches(fileContents[i].0, needle)) ==>
      Section(fileContents, needle) == ""
    ensures forall i :: IsFirstMatch(Keys(fileContents), i, needle) ==>
      Section(fileContents, needle) == fileContents[i].1
  {
    var keys := Keys(fileContents);
    FindKeySpec(keys, needle);
    forall i | IsFirstMatch(keys, i, needle) ensures Section(fileContents, needle) == fileContents[i].1 {
      var i' :| IsFirstMatch(keys, i', needle) && keys[i'] == FindKey(keys, needle).value;
      assert !(i' < i) && !(i < i');
      MatchedNameIsNotEmpty(keys[i], needle);
      LookupDistinct(fileContents, keys[i], "", i);
    }
    if forall i :: 0 <= i < |fileContents| ==> !NameMatches(fileContents[i].0, needle) {
      assert forall i :: 0 <= i < |keys| ==> keys[i] == fileContents[i].0;
    }
  }

  lemma MatchedNameIsNotEmpty(key: string, needle: string)
    requires needle != "" && NameMatches(key, needle)
    ensures key != ""
  {
    IncludesIff(Lower(key), needle);
  }

  /** Matching ignores letter case in the member name. */
  lemma MatchingIgnoresCase(k1: string, k2: string, needle: string)
    requires Lower(k1) == Lower(k2)
    ensures NameMatches(k1, needle) <==> NameMatches(k2, needle)
  {
  }

  /** It matches the needle anywhere in the name, under any folder and in
      any letter case. */
  lemma MatchingIsBySubstring(prefix: string, n: string, suffix: string, needle: string)
    requires Lower(n) == needle
    ensures NameMatches(prefix + n + suffix, needle)
  {
    LowerAppend(prefix + n, suffix);
    LowerAppend(prefix, n);
    var l := Lower(prefix) + needle + Lower(suffix);
    assert l[|prefix|..|prefix| + |needle|] == needle;
    assert OccursAt(l, needle, |prefix|);
    IncludesIff(l, needle);
  }

  // ---------------------------------------------------------------------
  // The assembled record
  // ---------------------------------------------------------------------

  /** The JSON-like record holding the four section texts. */
  function ZipRecord(profile: string, messages: string, orders: string, logins: string): Json {
    Obj([
      ("Profile", Obj([("Profile Info", Str(profile))])),
      ("Direct Messages", Obj([("Chat History", Obj([("ChatHistory", Str(messages))]))])),
      ("TikTok Shopping", Obj([("Order History", Str(orders))])),
      ("Activity", Obj([("Login History", Obj([("LoginHistoryList", Str(logins))]))]))
    ])
  }

  /** The record built from the content record. */
  function ZipJson(fileContents: Record<string>): Json {
    ZipRecord(
      Section(fileContents, ProfileNeedle),
      Section(fileContents, MessagesNeedle),
      Section(fileContents, OrdersNeedle),
      Section(fileContents, LoginsNeedle))
  }

  /** `parseZipData` once the archive has been read, with the members in
      the order their reads complete. */
  method ParseZipData(entries: seq<ZipEntry>) returns (zip: Json)
    ensures zip == ZipJson(FileContents(entries))
  {
    var fileContents := ReadFiles(entries);
    zip := ZipJson(fileContents);
  }

  /** All four sections are always present, each a string holding its
      text. */
  lemma ZipRecordShape(profile: string, messages: string, orders: string, logins: string)
    ensures var zip := ZipRecord(profile, messages, orders, logins);
      && Path(zip, ["Profile", "Profile Info"]) == Str(profile)
      && Path(zip, ["Direct Messages", "Chat History", "ChatHistory"]) == Str(messages)
      && Path(zip, ["TikTok Shopping", "Order History"]) == Str(orders)
      && Path(zip, ["Activity", "Login History", "LoginHistoryList"]) == Str(logins)
  {
    var zip := ZipRecord(profile, messages, orders, logins);
    var f := zip.fields;
    assert "Profile"[0] == 'P' && "Direct Messages"[0] == 'D' && "TikTok Shopping"[0] == 'T' && "Activity"[0] == 'A';
    FieldAt(f, 0, "Profile");
    FieldAt(f, 1, "Direct Messages");
    FieldAt(f, 2, "TikTok Shopping");
    FieldAt(f, 3, "Activity");
    PathStep(zip, "Profile", ["Profile Info"]);
    PathStep(zip, "Direct Messages", ["Chat History", "ChatHistory"]);
    PathStep(Get(zip, "Direct Messages"), "Chat History", ["ChatHistory"]);
    PathStep(zip, "TikTok Shopping", ["Order History"]);
    PathStep(zip, "Activity", ["Login History", "LoginHistoryList"]);
    PathStep(Get(zip, "Activity"), "Login History", ["LoginHistoryList"]);
  }

  /** So the parsed archive always has its four sections, each the text of
      the first member matching the section's needle, or "". */
  lemma ZipSectionsArePresent(fileContents: Record<string>)
    ensures Path(ZipJson(fileContents), ["Profile", "Profile Info"]) == Str(Section(fileContents, ProfileNeedle))
    ensures Path(ZipJson(fileContents), ["Direct Messages", "Chat History", "ChatHistory"]) == Str(Section(fileContents, MessagesNeedle))
    ensures Path(ZipJson(fileContents), ["TikTok Shopping", "Order History"]) == Str(Section(fileContents, OrdersNeedle))
    ensures Path(ZipJson(fileContents), ["Activity", "Login History", "LoginHistoryList"]) == Str(Section(fileContents, LoginsNeedle))
  {
    ZipRecordShape(Section(fileContents, ProfileNeedle), Section(fileContents, MessagesNeedle),
                   Section(fileContents, OrdersNeedle), Section(fileContents, LoginsNeedle));
  }

  lemma PathStep(j: Json, key: string, rest: seq<string>)
    ensures Path(j, [key] + rest) == Path(Get(j, key), rest)
  {
    assert ([key] + rest)[1..] == rest;
  }

  /** The orders go under "TikTok Shopping", but the normaliser reads
      "Tiktok Shopping": from this record it passes on no shopping data. */
  lemma ZipOrdersAreNotRead(profile: string, messages: string, orders: string, logins: string)
    ensures Get(ZipRecord(profile, messages, orders, logins), "Tiktok Shopping") == Undefined
  {
    var f := ZipRecord(profile, messages, orders, logins).fields;
    assert "Profile"[0] == 'P' && "Direct Messages"[0] == 'D' && "TikTok Shopping"[3] == 'T' && "Activity"[0] == 'A';
    assert "Tiktok Shopping"[0] == 'T' && "Tiktok Shopping"[3] == 't';
    FieldSpec(f, "Tiktok Shopping");
  }

  /** The profile text sits under "Profile Info", which none of the
      profile lookups reads, so both profile fields fall back to
      "Unknown". */
  lemma ZipProfileIsUnknown(profile: string, messages: string, orders: string, logins: string)
    ensures ResolveProfile(ZipRecord(profile, messages, orders, logins)) == ProfileData(Unknown, Unknown)
  {
    var zip := ZipRecord(profile, messages, orders, logins);
    assert "Profile"[0] == 'P' && "Direct Messages"[0] == 'D' && "TikTok Shopping"[0] == 'T' && "Activity"[0] == 'A';
    assert "name"[0] == 'n' && "birthDate"[0] == 'b';
    FieldSpec(zip.fields, "name");
    FieldSpec(zip.fields, "birthDate");
    ProfileLookupsMiss(profile, messages, orders, logins, "userName");
    ProfileLookupsMiss(profile, messages, orders, logins, "birthDate");
  }

  /** Both nested profile lookups of a field miss the "Profile Info" text. */
  lemma ProfileLookupsMiss(profile: string, messages: string, orders: string, logins: string, field: string)
    requires field != "Profile Info"
    ensures var zip := ZipRecord(profile, messages, orders, logins);
      && Path(zip, ["Profile", "Profile Information", "ProfileMap", field]) == Undefined
      && Path(zip, ["Profile", field]) == Undefined
  {
    var zip := ZipRecord(profile, messages, orders, logins);
    FieldAt(zip.fields, 0, "Profile");
    var p := Get(zip, "Profile");
    assert p == Obj([("Profile Info", Str(profile))]);
    assert |"Profile Info"| != |"Profile Information"|;
    FieldSpec(p.fields, "Profile Information");
    FieldSpec(p.fields, field);
    PathStep(zip, "Profile", ["Profile Information", "ProfileMap", field]);
    PathStep(zip, "Profile", [field]);
    PathStep(p, "Profile Information", ["ProfileMap", field]);
    PathStep(p, field, []);
    PathOfUndefined(["ProfileMap", field]);
  }

  /** The chat history is a string, whose `Object.keys` entries are single
      characters and never arrays: the normaliser finds no contacts and no
      sent messages. */
  lemma ZipChatHistoryGivesNoContacts(profile: string, messages: string, orders: string, logins: string, myUsername: string)
    ensures var cs := Contacts(Threads(ZipRecord(profile, messages, orders, logins)));
      SummaryOf(cs) == [] && SentOf(cs, myUsername) == []
  {
    var zip := ZipRecord(profile, messages, orders, logins);
    ZipRecordShape(profile, messages, orders, logins);
    var threads := Threads(zip);
    EntriesOfSequences(ChatHistoryOf(zip));
    assert forall i :: 0 <= i < |threads| ==> threads[i].1.Str?;
    var cs := Contacts(threads);
    assert forall i :: 0 <= i < |cs| ==> cs[i].1 == threads[i].1;
    NoArrayThreadsGiveNothing(cs, myUsername);
  }

  /** A non-empty login section is a string, which has no `map`: the
      dashboard's login mapping raises a TypeError on it; an empty one falls
      back to no logins. */
  lemma ZipLoginsAreNotMapped(profile: string, messages: string, orders: string, logins: string)
    ensures var loginData := LoginDataOf(ZipRecord(profile, messages, orders, logins));
      && (logins != "" ==> Dashboard.MapLogins(loginData) == Err(TypeError("loginData.map is not a function")))
      && (logins == "" ==> Dashboard.MapLogins(loginData) == Ok([]))
  {
    ZipRecordShape(profile, messages, orders, logins);
  }
}
