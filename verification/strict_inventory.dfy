/** The account list of Tunnel Monitor v3.3 (`_worker.js`): the
    `ACCOUNTS_LIST` setting holds `alias,accountId,apiToken` entries
    separated by newlines or `;`. Any malformed entry rejects the whole
    list. */
module StrictInventory {

  import opened Wrappers
  import opened JsText
  import opened Seqs

  datatype Account = Account(name: string, id: string, token: string)

  /** The errors `validateConfig` throws. */
  datatype ConfigError =
    | MissingAccountsList           // the setting is absent or the empty string
    | EmptyAccountsList             // nothing but separators and white space
    | MalformedEntry(entry: string) // an entry with fewer than three comma fields

  /** The full-width comma, the only full-width character this revision normalises. */
  const FullWidthComma: char := '，'

  /** The account entries of the list text: full-width commas made ASCII,
      split on newline or `;`, every piece trimmed, empty pieces dropped. */
  function Entries(raw: string): (r: seq<string>)
    ensures forall i :: 0 <= i < |r| ==> r[i] != "" && Trimmed(r[i])
  {
    NonEmptyTrimmed(SplitOn(ReplaceChar(raw, FullWidthComma, ','), {'\n', ';'}))
  }

  /** An entry with fewer than three comma-separated fields. */
  predicate Malformed(entry: string) {
    |SplitOn(entry, {','})| < 3
  }

  /** One entry: its first three comma fields, trimmed, are the alias, the
      account id and the API token; further fields are ignored. */
  function ParseEntry(entry: string): (r: Result<Account, ConfigError>)
    ensures r.Failure? <==> Malformed(entry)
    ensures r.Failure? ==> r.error == MalformedEntry(entry)
    ensures r.Success? ==> Trimmed(r.value.name) && Trimmed(r.value.id) && Trimmed(r.value.token)
  {
    var parts := SplitOn(entry, {','});
    if |parts| < 3 then Failure(MalformedEntry(entry))
    else Success(Account(Trim(parts[0]), Trim(parts[1]), Trim(parts[2])))
  }

  /** `entries.map(...)` with a throwing callback: one account per entry, in
      order, or the error of the first malformed entry. */
  function ParseEntries(entries: seq<string>): (r: Result<seq<Account>, ConfigError>)
    ensures r.Success? <==> forall i :: 0 <= i < |entries| ==> !Malformed(entries[i])
    ensures r.Success? ==> |r.value| == |entries|
                           && forall i :: 0 <= i < |entries| ==> ParseEntry(entries[i]) == Success(r.value[i])
    ensures r.Failure? ==> r.error == MalformedEntry(entries[FirstMalformed(entries)])
  {
    if |entries| == 0 then Success([])
    else
      match ParseEntry(entries[0])
      case Failure(e) => Failure(e)
      case Success(a) =>
        match ParseEntries(entries[1..])
        case Failure(e) => Failure(e)
        case Success(rest) => Success([a] + rest)
  }

  /** The position of the first entry with fewer than three comma fields
      (the length of the list when there is none). */
  function FirstMalformed(entries: seq<string>): (k: nat)
    ensures k <= |entries|
    ensures k < |entries| ==> Malformed(entries[k])
    ensures forall j :: 0 <= j < k ==> !Malformed(entries[j])
  {
    if |entries| == 0 || Malformed(entries[0]) then 0
    else 1 + FirstMalformed(entries[1..])
  }

  /** `validateConfig(env)`: the accounts of the `ACCOUNTS_LIST` setting. */
  function ValidateConfig(accountsList: Option<string>): (r: Result<seq<Account>, ConfigError>)
    ensures accountsList.None? || accountsList == Some("") ==> r == Failure(MissingAccountsList)
    ensures r == Failure(EmptyAccountsList)
            <==> accountsList.Some? && accountsList.value != "" && Entries(accountsList.value) == []
    ensures r.Success? ==> accountsList.Some? && |r.value| == |Entries(accountsList.value)| > 0
    ensures accountsList.Some? && accountsList.value != "" && Entries(accountsList.value) != []
            ==> r == ParseEntries(Entries(accountsList.value))
    ensures r.Failure? && r.error.MalformedEntry? ==>
              accountsList.Some?
              && FirstMalformed(Entries(accountsList.value)) < |Entries(accountsList.value)|
              && r.error.entry == Entries(accountsList.value)[FirstMalformed(Entries(accountsList.value))]
  {
    match accountsList
    case None => Failure(MissingAccountsList)
    case Some(raw) =>
      if raw == "" then Failure(MissingAccountsList)
      else
        var entries := Entries(raw);
        if entries == [] then Failure(EmptyAccountsList) else ParseEntries(entries)
  }

  /** `ALERT_ONLY_ON_ERROR`: on unless the setting is exactly the text `false`. */
  function AlertOnlyOnError(setting: Option<string>): (on: bool)
    ensures setting.None? ==> on
    ensures !on <==> setting == Some("false")
  {
    setting != Some("false")
  }

  // ----- what the splitting promises -----

  /** Both a newline and a `;` separate entries: the entries of two texts
      joined by either are the entries of the first, then those of the second. */
  lemma EntriesSplit(a: string, sep: char, b: string)
    requires sep == '\n' || sep == ';'
    ensures Entries(a + [sep] + b) == Entries(a) + Entries(b)
  {
    var ra, rb := ReplaceChar(a, FullWidthComma, ','), ReplaceChar(b, FullWidthComma, ',');
    ReplaceCharAppend(a + [sep], b, FullWidthComma, ',');
    ReplaceCharAppend(a, [sep], FullWidthComma, ',');
    assert ReplaceChar([sep], FullWidthComma, ',') == [sep];
    assert ReplaceChar(a + [sep] + b, FullWidthComma, ',') == ra + [sep] + rb;
    SplitAtSeparator(ra, sep, rb, {'\n', ';'});
    NonEmptyTrimmedAppend(SplitOn(ra, {'\n', ';'}), SplitOn(rb, {'\n', ';'}));
  }

  /** An entry padded with white space (other than a newline) is read trimmed. */
  lemma EntriesOfPadded(before: string, e: string, after: string)
    requires AllWhite(before) && AllWhite(after) && '\n' !in before && '\n' !in after
    requires e != "" && Trimmed(e) && '\n' !in e && ';' !in e && FullWidthComma !in e
    ensures Entries(before + e + after) == [e]
  {
    var s := before + e + after;
    assert forall k :: 0 <= k < |s| ==> s[k] != FullWidthComma && s[k] != '\n' && s[k] != ';';
    ReplaceAbsent(s, FullWidthComma, ',');
    assert IndexOfAny(s, {'\n', ';'}).None?;
    TrimOfPadded(before, e, after);
  }

  /** A piece of nothing but white space (other than a newline) is dropped. */
  lemma EntriesOfBlank(pad: string)
    requires AllWhite(pad) && '\n' !in pad
    ensures Entries(pad) == []
  {
    assert forall k :: 0 <= k < |pad| ==> pad[k] != FullWidthComma && pad[k] != ';';
    ReplaceAbsent(pad, FullWidthComma, ',');
    assert IndexOfAny(pad, {'\n', ';'}).None?;
    TrimOfPadded(pad, "", "");
    assert pad + "" + "" == pad;
  }

  /** A full-width comma reads as an ASCII comma wherever it stands. */
  lemma EntriesFullWidthComma(a: string, b: string)
    ensures Entries(a + [FullWidthComma] + b) == Entries(a + [','] + b)
  {
    ReplaceCharAppend(a + [FullWidthComma], b, FullWidthComma, ',');
    ReplaceCharAppend(a, [FullWidthComma], FullWidthComma, ',');
    ReplaceCharAppend(a + [','], b, FullWidthComma, ',');
    ReplaceCharAppend(a, [','], FullWidthComma, ',');
    assert ReplaceChar([FullWidthComma], FullWidthComma, ',') == [','] == ReplaceChar([','], FullWidthComma, ',');
  }

  /** The comma fields of `x,y,z…` start with `x`, `y` and `z` when
      whatever follows `z` is empty or starts a new field. */
  lemma SplitThreeFields(x: string, y: string, z: string, rest: string)
    requires ',' !in x && ',' !in y && ',' !in z
    requires rest == "" || rest[0] == ','
    ensures var parts := SplitOn(x + [','] + (y + [','] + (z + rest)), {','});
            |parts| >= 3 && parts[0] == x && parts[1] == y && parts[2] == z
  {
    SplitCut(x, ',', y + [','] + (z + rest), {','});
    SplitCut(y, ',', z + rest, {','});
    if rest == "" {
      AppendEmpty(z);
      assert IndexOfAny(z, {','}).None?;
    } else {
      HeadTail(rest);
      AppendAssoc(z, [','], rest[1..]);
      SplitCut(z, ',', rest[1..], {','});
    }
  }

  /** An entry's account is its first three comma fields, trimmed; whatever
      follows the third field is ignored. */
  lemma ParseEntryFields(x: string, y: string, z: string, rest: string)
    requires ',' !in x && ',' !in y && ',' !in z
    requires rest == "" || rest[0] == ','
    ensures ParseEntry(x + [','] + y + [','] + z + rest) == Success(Account(Trim(x), Trim(y), Trim(z)))
  {
    var e := x + [','] + y + [','] + z + rest;
    assert e == x + [','] + (y + [','] + (z + rest));
    SplitThreeFields(x, y, z, rest);
  }


  // ----- the list format, written out, and the round trip through the parser -----

  /** A field that survives the parser verbatim: already trimmed, and free
      of the comma, the entry separators and the full-width comma. */
  predicate CleanField(f: string) {
    Trimmed(f) && ',' !in f && ';' !in f && '\n' !in f && FullWidthComma !in f
  }

  predicate CleanAccount(a: Account) {
    CleanField(a.name) && CleanField(a.id) && CleanField(a.token)
  }

  function RenderEntry(a: Account): string {
    Join([a.name, a.id, a.token], ',')
  }

  /** The list text an operator writes for these accounts, one per line. */
  function RenderList(accounts: seq<Account>): string {
    Join(seq(|accounts|, i requires 0 <= i < |accounts| => RenderEntry(accounts[i])), '\n')
  }

  lemma RenderEntryShape(a: Account)
    requires CleanAccount(a)
    ensures RenderEntry(a) == a.name + "," + a.id + "," + a.token
    ensures RenderEntry(a) != "" && Trimmed(RenderEntry(a))
    ensures '\n' !in RenderEntry(a) && ';' !in RenderEntry(a) && FullWidthComma !in RenderEntry(a)
  {
    var e := RenderEntry(a);
    assert Join([a.id, a.token], ',') == a.id + "," + a.token;
    assert e == a.name + "," + a.id + "," + a.token;
    if a.name != "" { assert e[0] == a.name[0]; } else { assert e[0] == ','; }
    if a.token != "" { assert e[|e| - 1] == a.token[|a.token| - 1]; } else { assert e[|e| - 1] == ','; }
    JoinAvoids([a.name, a.id, a.token], ',', '\n');
    JoinAvoids([a.name, a.id, a.token], ',', ';');
    JoinAvoids([a.name, a.id, a.token], ',', FullWidthComma);
  }

  lemma SplitRenderedEntry(a: Account)
    requires CleanAccount(a)
    ensures SplitOn(RenderEntry(a), {','}) == [a.name, a.id, a.token]
  {
    SplitJoin([a.name, a.id, a.token], ',', {','});
  }

  /** A rendered entry parses back to its account. */
  lemma {:induction false} ParseRenderedEntry(a: Account)
    requires CleanAccount(a)
    ensures ParseEntry(RenderEntry(a)) == Success(a)
  {
    SplitRenderedEntry(a);
    ParseFields(RenderEntry(a), a);
  }

  /** An entry whose comma fields are the trimmed fields of an account parses to it. */
  lemma ParseFields(e: string, a: Account)
    requires Trimmed(a.name) && Trimmed(a.id) && Trimmed(a.token)
    requires SplitOn(e, {','}) == [a.name, a.id, a.token]
    ensures ParseEntry(e) == Success(a)
  {
    TrimOfTrimmed(a.name);
    TrimOfTrimmed(a.id);
    TrimOfTrimmed(a.token);
  }

  /** Writing a non-empty list of clean accounts one per line and parsing
      it gives back exactly those accounts, in order. */
  lemma {:induction false} ValidateRenderedList(accounts: seq<Account>)
    requires |accounts| >= 1
    requires forall i :: 0 <= i < |accounts| ==> CleanAccount(accounts[i])
    ensures ValidateConfig(Some(RenderList(accounts))) == Success(accounts)
  {
    var entries := seq(|accounts|, i requires 0 <= i < |accounts| => RenderEntry(accounts[i]));
    var raw := RenderList(accounts);
    forall i | 0 <= i < |entries|
      ensures entries[i] != "" && Trimmed(entries[i])
      ensures '\n' !in entries[i] && ';' !in entries[i] && FullWidthComma !in entries[i]
      ensures ParseEntry(entries[i]) == Success(accounts[i])
    {
      RenderEntryShape(accounts[i]);
      ParseRenderedEntry(accounts[i]);
    }
    JoinAvoids(entries, '\n', FullWidthComma);
    ReplaceAbsent(raw, FullWidthComma, ',');
    SplitJoin(entries, '\n', {'\n', ';'});
    NonEmptyTrimmedOfClean(entries);
    assert Entries(raw) == entries;
    assert raw != "" by { assert |entries[0]| > 0; JoinHead(entries, '\n'); }
    var r := ParseEntries(entries);
    assert r.Success?;
    assert r.value == accounts;
  }
}
