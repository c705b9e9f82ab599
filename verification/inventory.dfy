/** The inventory of Tunnel Monitor v10.0 (`_worker-1.0.js`): every line of
    the `ACCOUNTS_LIST` setting reads
        alias:accountId,apiToken[,tunnelName]*[;GitHub:owner,repo,pat]
    Lines that do not fit are skipped. The result is the list of configured
    tunnels and `patMap`, the map from a tunnel name to the GitHub workflow
    that repairs it. */
module Inventory {

  import opened Wrappers
  import opened JsText
  import opened Seqs

  datatype GitHubInfo = GitHubInfo(owner: string, repo: string, pat: string)

  /** What one well-formed line declares. */
  datatype LineDecl = LineDecl(alias: string, accountId: string, apiToken: string,
                               names: seq<string>, gitHub: Option<GitHubInfo>)

  /** One entry of `tunnels`. */
  datatype TunnelConfig = TunnelConfig(name: string, accountId: string, apiToken: string,
                                       accountName: string, githubOwner: Option<string>,
                                       githubRepo: Option<string>)

  /** One value of `patMap`. */
  datatype Target = Target(pat: string, owner: string, repo: string, alias: string)

  /** The worker's settings this revision reads; `None` is an unset variable. */
  datatype Env = Env(accountsList: Option<string>, tgBotToken: Option<string>,
                     tgChatId: Option<string>, alertOnlyOnError: Option<string>)

  datatype Telegram = Telegram(enabled: bool, botToken: Option<string>, chatId: Option<string>)

  datatype Config = Config(tunnels: seq<TunnelConfig>, patMap: map<string, Target>,
                           telegram: Telegram, alertOnlyOnError: bool)

  datatype ConfigError = MissingAccountsList  // the setting is absent or the empty string

  const FullWidthColon: char := '：'
  const FullWidthComma: char := '，'
  const FullWidthSemicolon: char := '；'

  /** The ASCII counterpart of a full-width `：`, `，` or `；`; any other
      character is its own. */
  function Halfwidth(c: char): char {
    if c == FullWidthColon then ':'
    else if c == FullWidthComma then ','
    else if c == FullWidthSemicolon then ';'
    else c
  }

  /** Full-width `：，；` replaced by their ASCII counterparts. */
  function Normalize(raw: string): (r: string)
    ensures |r| == |raw|
    ensures forall i :: 0 <= i < |raw| ==> r[i] == Halfwidth(raw[i])
    ensures FullWidthColon !in r && FullWidthComma !in r && FullWidthSemicolon !in r
  {
    ReplaceChar(ReplaceChar(ReplaceChar(raw, FullWidthColon, ':'), FullWidthComma, ','), FullWidthSemicolon, ';')
  }

  /** Normalising twice is normalising once. */
  lemma NormalizeIdempotent(raw: string)
    ensures Normalize(Normalize(raw)) == Normalize(raw)
  {
    var n := Normalize(raw);
    ReplaceAbsent(n, FullWidthColon, ':');
    ReplaceAbsent(n, FullWidthComma, ',');
    ReplaceAbsent(n, FullWidthSemicolon, ';');
  }

  /** The lines of the setting: normalised, split on newline, trimmed, empty ones dropped. */
  function Lines(raw: string): (r: seq<string>)
    ensures forall k :: 0 <= k < |r| ==> r[k] != "" && Trimmed(r[k])
  {
    NonEmptyTrimmed(SplitOn(Normalize(raw), {'\n'}))
  }

  /** Normalising a text cut in two is normalising each part. */
  lemma NormalizeAppend(a: string, b: string)
    ensures Normalize(a + b) == Normalize(a) + Normalize(b)
  {
  }

  /** A newline separates lines: the lines of two texts joined by one are
      the lines of the first, then those of the second. */
  lemma LinesSplit(a: string, b: string)
    ensures Lines(a + "\n" + b) == Lines(a) + Lines(b)
  {
    NormalizeAppend(a + "\n", b);
    NormalizeAppend(a, "\n");
    assert Normalize("\n") == "\n";
    SplitAtSeparator(Normalize(a), '\n', Normalize(b), {'\n'});
    NonEmptyTrimmedAppend(SplitOn(Normalize(a), {'\n'}), SplitOn(Normalize(b), {'\n'}));
  }

  /** A text without a newline is one line: its normalised text, trimmed,
      or no line at all when that is blank. With LinesSplit this gives the
      lines of any text. */
  lemma LinesOfOneLine(x: string)
    requires '\n' !in x
    ensures var t := Trim(Normalize(x));
            Lines(x) == if t == "" then [] else [t]
  {
    var n := Normalize(x);
    assert forall k :: 0 <= k < |n| ==> n[k] == Halfwidth(x[k]) && x[k] != '\n';
    assert IndexOfAny(n, {'\n'}).None?;
  }

  function LowerAscii(c: char): char {
    if 'A' <= c <= 'Z' then (c as int + 32) as char else c
  }

  /** `s.replace(/^GitHub:/i, '')`: the first seven characters go exactly
      when they spell `github:` in any mix of ASCII case. */
  function StripGitHubPrefix(s: string): (r: string)
    ensures (|s| >= 7 && forall i :: 0 <= i < 7 ==> LowerAscii(s[i]) == "github:"[i]) ==> r == s[7..]
    ensures !(|s| >= 7 && forall i :: 0 <= i < 7 ==> LowerAscii(s[i]) == "github:"[i]) ==> r == s
  {
    if |s| >= 7 && seq(7, i requires 0 <= i < 7 => LowerAscii(s[i])) == "github:" then s[7..] else s
  }

  /** The GitHub segment: owner, repository and token are its first three
      comma fields, trimmed; with fewer fields it names no workflow. */
  function ParseGitHub(ghPart: string): (r: Option<GitHubInfo>)
    ensures r.Some? <==> |SplitOn(Trim(StripGitHubPrefix(ghPart)), {','})| >= 3
  {
    var details := SplitOn(Trim(StripGitHubPrefix(ghPart)), {','});
    if |details| >= 3 then Some(GitHubInfo(Trim(details[0]), Trim(details[1]), Trim(details[2])))
    else None
  }

  /** The Cloudflare segment of a line: everything before its first `;`, trimmed. */
  function CloudflarePart(line: string): (r: string)
    ensures Trimmed(r) && ';' !in r
  {
    var first := SplitOn(line, {';'})[0];
    TrimCutsOnlyWhite(first);
    Trim(first)
  }

  /** Seven characters that spell `github:` in some case are stripped. */
  lemma StripSpelledPrefix(p: string, x: string)
    requires |p| == 7 && forall i :: 0 <= i < 7 ==> LowerAscii(p[i]) == "github:"[i]
    ensures StripGitHubPrefix(p + x) == x
  {
    assert forall i :: 0 <= i < 7 ==> (p + x)[i] == p[i];
    assert (p + x)[7..] == x;
  }

  /** The prefix is stripped whatever the case of its letters. */
  lemma StripGitHubAnyCase(x: string)
    ensures StripGitHubPrefix("GitHub:" + x) == x
    ensures StripGitHubPrefix("github:" + x) == x
    ensures StripGitHubPrefix("GITHUB:" + x) == x
  {
    StripSpelledPrefix("GitHub:", x);
    StripSpelledPrefix("github:", x);
    StripSpelledPrefix("GITHUB:", x);
  }

  /** A segment that does not start with the prefix is kept whole. */
  lemma StripGitHubNeedsColon(x: string)
    ensures StripGitHubPrefix("GitHub" + x) == "GitHub" + x <==> x == [] || x[0] != ':'
  {
    var s := "GitHub" + x;
    if |x| > 0 {
      assert s[6] == x[0];
      if x[0] == ':' {
        assert |StripGitHubPrefix(s)| < |s|;
      } else {
        assert LowerAscii(s[6]) != "github:"[6];
      }
    }
  }

  /** The GitHub segment, if the line has a non-empty one after its first `;`. */
  function GitHubPart(line: string): (r: Option<string>)
    ensures r.Some? ==> r.value != ""
  {
    var parts := SplitOn(line, {';'});
    if |parts| > 1 && Trim(parts[1]) != "" then Some(Trim(parts[1])) else None
  }

  /** A line without `;` is all Cloudflare segment, trimmed, and names no workflow. */
  lemma SegmentsWithoutSemicolon(line: string)
    requires ';' !in line
    ensures CloudflarePart(line) == Trim(line) && GitHubPart(line).None?
  {
    assert IndexOfAny(line, {';'}).None?;
  }

  /** A line is cut at its first `;`: the Cloudflare segment is the text
      before it, trimmed, and the GitHub segment is the next piece, trimmed,
      unless that is blank. */
  lemma SegmentsAtFirstSemicolon(x: string, y: string)
    requires ';' !in x
    ensures CloudflarePart(x + [';'] + y) == Trim(x)
    ensures var p := Trim(SplitOn(y, {';'})[0]);
            GitHubPart(x + [';'] + y) == if p == "" then None else Some(p)
  {
    SplitCut(x, ';', y, {';'});
  }

  /** A line is skipped when its Cloudflare segment has no `:`, or fewer than
      two comma fields after the first `:`. */
  predicate Skipped(line: string) {
    var cf := CloudflarePart(line);
    match IndexOfAny(cf, {':'})
    case None => true
    case Some(i) => |SplitOn(cf[i + 1..], {','})| < 2
  }

  /** A field that is written without separators or padding. */
  predicate PlainField(f: string) {
    f != "" && Trimmed(f) && forall k :: 0 <= k < |f| ==> f[k] !in {':', ',', ';'}
  }

  /** A trimmed line without `;` is all Cloudflare segment. */
  lemma WholeSegment(line: string)
    requires Trimmed(line) && ';' !in line
    ensures CloudflarePart(line) == line && GitHubPart(line).None?
  {
    assert IndexOfAny(line, {';'}).None?;
    TrimOfTrimmed(line);
  }

  /** The fields of `alias:id,token` around its colon. */
  lemma MinimalFields(alias: string, id: string, token: string)
    requires PlainField(alias) && PlainField(id) && PlainField(token)
    ensures var line := alias + [':'] + (id + [','] + token);
            IndexOfAny(line, {':'}) == Some(|alias|)
            && line[..|alias|] == alias && line[|alias| + 1..] == id + [','] + token
            && SplitOn(id + [','] + token, {','}) == [id, token]
  {
    var fields := id + [','] + token;
    FirstSeparator(alias, [':'] + fields, {':'});
    assert alias + [':'] + fields == alias + ([':'] + fields);
    SplitCut(id, ',', token, {','});
    assert IndexOfAny(token, {','}).None?;
  }

  /** The smallest well-formed line, `alias:accountId,apiToken`, declares
      that account with no tunnel names and no workflow. */
  lemma ParseMinimalLine(alias: string, id: string, token: string)
    requires PlainField(alias) && PlainField(id) && PlainField(token)
    ensures ParseLine(alias + [':'] + (id + [','] + token))
            == Some(LineDecl(alias, id, token, [], None))
  {
    var line := alias + [':'] + (id + [','] + token);
    assert forall k :: 0 <= k < |line| ==> line[k] != ';';
    assert line[0] == alias[0] && line[|line| - 1] == token[|token| - 1];
    WholeSegment(line);
    MinimalFields(alias, id, token);
    TrimOfTrimmed(alias);
    TrimOfTrimmed(id);
    TrimOfTrimmed(token);
    var details := SplitOn(id + [','] + token, {','});
    assert details[2..] == [];
  }

  /** A line whose Cloudflare segment has one field after the `:` is skipped. */
  lemma OneFieldSkipped(alias: string, id: string)
    requires PlainField(alias) && PlainField(id)
    ensures Skipped(alias + ":" + id)
  {
    var line := alias + [':'] + id;
    assert alias + ":" + id == line;
    assert forall k :: 0 <= k < |line| ==> line[k] != ';';
    assert IndexOfAny(line, {';'}).None?;
    TrimOfTrimmed(line);
    FirstSeparator(alias, [':'] + id, {':'});
    assert line == alias + ([':'] + id);
    assert line[|alias| + 1..] == id;
    assert IndexOfAny(id, {','}).None?;
  }

  /** One line of the inventory; `None` for a line the loop skips. */
  function ParseLine(line: string): (r: Option<LineDecl>)
    ensures r.None? <==> Skipped(line)
    ensures r.Some? ==> forall k :: 0 <= k < |r.value.names| ==> r.value.names[k] != ""
  {
    ParseSegments(CloudflarePart(line), GitHubPart(line))
  }

  /** The line, given its trimmed Cloudflare segment and its GitHub segment. */
  function ParseSegments(cf: string, ghPart: Option<string>): (r: Option<LineDecl>)
    ensures r.None? <==> match IndexOfAny(cf, {':'})
                         case None => true
                         case Some(i) => |SplitOn(cf[i + 1..], {','})| < 2
    ensures r.Some? ==> forall k :: 0 <= k < |r.value.names| ==> r.value.names[k] != ""
  {
    match IndexOfAny(cf, {':'})
    case None => None
    case Some(i) =>
      var details := SplitOn(cf[i + 1..], {','});
      if |details| < 2 then None
      else
        var gh := match ghPart case None => None case Some(g) => ParseGitHub(g);
        Some(LineDecl(Trim(cf[..i]), Trim(details[0]), Trim(details[1]), NonEmptyTrimmed(details[2..]), gh))
  }

  /** The line carries a usable workflow: three GitHub fields and a non-empty token. */
  predicate HasPat(d: LineDecl) {
    d.gitHub.Some? && d.gitHub.value.pat != ""
  }

  function TargetOf(d: LineDecl): Target
    requires d.gitHub.Some?
  {
    Target(d.gitHub.value.pat, d.gitHub.value.owner, d.gitHub.value.repo, d.alias)
  }

  /** The tunnel record a line makes for one of its names. */
  function TunnelFor(d: LineDecl, name: string): TunnelConfig {
    TunnelConfig(name, d.accountId, d.apiToken, d.alias,
                 if d.gitHub.Some? then Some(d.gitHub.value.owner) else None,
                 if d.gitHub.Some? then Some(d.gitHub.value.repo) else None)
  }

  /** The records of a line: one per name, in order. */
  function LineTunnels(d: LineDecl): (r: seq<TunnelConfig>)
    ensures |r| == |d.names|
    ensures forall k :: 0 <= k < |r| ==> r[k].name == d.names[k] && r[k].accountId == d.accountId
                                         && r[k].apiToken == d.apiToken && r[k].accountName == d.alias
  {
    seq(|d.names|, k requires 0 <= k < |d.names| => TunnelFor(d, d.names[k]))
  }

  /** The `patMap` entries a line sets for some of its names: each of them
      maps to the line's target when the line carries a token. */
  function LineTargets(d: LineDecl, names: seq<string>): (m: map<string, Target>)
    ensures forall n :: n in m <==> HasPat(d) && n in names
    ensures forall n :: n in m ==> m[n] == TargetOf(d)
  {
    if |names| == 0 || !HasPat(d) then map[]
    else LineTargets(d, names[..|names| - 1])[names[|names| - 1] := TargetOf(d)]
  }

  /** The tunnel records one line adds, given what it parsed to. */
  function RecordsOf(decl: Option<LineDecl>): seq<TunnelConfig> {
    match decl
    case None => []
    case Some(d) => LineTunnels(d)
  }

  /** The `patMap` entries one line sets, given what it parsed to. */
  function TargetsOf(decl: Option<LineDecl>): map<string, Target> {
    match decl
    case None => map[]
    case Some(d) => LineTargets(d, d.names)
  }

  /** What every line of the setting parses to. */
  function ParsedLines(lines: seq<string>): (r: seq<Option<LineDecl>>)
    ensures |r| == |lines|
  {
    seq(|lines|, k requires 0 <= k < |lines| => ParseLine(lines[k]))
  }

  /** `tunnels` after the given parsed lines. */
  function TunnelsOf(decls: seq<Option<LineDecl>>): seq<TunnelConfig> {
    if |decls| == 0 then []
    else TunnelsOf(decls[..|decls| - 1]) + RecordsOf(decls[|decls| - 1])
  }

  /** `patMap` after the given parsed lines: a later line overrides an earlier one. */
  function PatMapOf(decls: seq<Option<LineDecl>>): map<string, Target> {
    if |decls| == 0 then map[]
    else PatMapOf(decls[..|decls| - 1]) + TargetsOf(decls[|decls| - 1])
  }

  /** A JavaScript truthy setting: set and not the empty string. */
  predicate Truthy(v: Option<string>) {
    v.Some? && v.value != ""
  }

  /** What `validateConfig(env)` returns: it throws only when `ACCOUNTS_LIST`
      is unset or empty, never because of the lines themselves. */
  function ConfigOf(env: Env): (r: Result<Config, ConfigError>)
    ensures r.Failure? <==> !Truthy(env.accountsList)
    ensures r.Success? ==> r.value.telegram.enabled == (Truthy(env.tgBotToken) && Truthy(env.tgChatId))
    ensures r.Success? ==> (r.value.alertOnlyOnError <==> env.alertOnlyOnError != Some("false"))
  {
    if !Truthy(env.accountsList) then Failure(MissingAccountsList)
    else
      var decls := ParsedLines(Lines(env.accountsList.value));
      Success(Config(TunnelsOf(decls), PatMapOf(decls),
                     Telegram(Truthy(env.tgBotToken) && Truthy(env.tgChatId), env.tgBotToken, env.tgChatId),
                     env.alertOnlyOnError != Some("false")))
  }

  lemma UpdateAfterUnion<K, V>(a: map<K, V>, b: map<K, V>, k: K, v: V)
    ensures (a + b)[k := v] == a + b[k := v]
  {
  }

  /** The loop body for one well-formed line: a tunnel record per name,
      and a `patMap` entry per name when the line carries a token. */
  method AddLine(d: LineDecl, tunnels: seq<TunnelConfig>, patMap: map<string, Target>)
    returns (tunnels': seq<TunnelConfig>, patMap': map<string, Target>)
    ensures tunnels' == tunnels + LineTunnels(d)
    ensures patMap' == patMap + LineTargets(d, d.names)
  {
    tunnels', patMap' := tunnels, patMap;
    for j := 0 to |d.names|
      invariant tunnels' == tunnels + LineTunnels(d)[..j]
      invariant patMap' == patMap + LineTargets(d, d.names[..j])
    {
      var name := d.names[j];
      tunnels' := tunnels' + [TunnelFor(d, name)];
      if HasPat(d) {
        UpdateAfterUnion(patMap, LineTargets(d, d.names[..j]), name, TargetOf(d));
        patMap' := patMap'[name := TargetOf(d)];
        assert d.names[..j + 1][..j] == d.names[..j];
      }
      assert LineTunnels(d)[..j + 1] == LineTunnels(d)[..j] + [TunnelFor(d, name)];
    }
    assert d.names[..|d.names|] == d.names;
    assert LineTunnels(d)[..|d.names|] == LineTunnels(d);
  }

  /** One turn of the loop over lines: a line that does not parse is
      skipped, the records of one that does are added. */
  method ApplyLine(line: string, tunnels: seq<TunnelConfig>, patMap: map<string, Target>)
    returns (tunnels': seq<TunnelConfig>, patMap': map<string, Target>)
    ensures tunnels' == tunnels + RecordsOf(ParseLine(line))
    ensures patMap' == patMap + TargetsOf(ParseLine(line))
  {
    var decl := ParseLine(line);
    if decl.Some? {
      tunnels', patMap' := AddLine(decl.value, tunnels, patMap);
    } else {
      tunnels', patMap' := tunnels, patMap;
    }
  }

  /** The loop over the lines of the setting. */
  method ConfigureLines(lines: seq<string>) returns (tunnels: seq<TunnelConfig>, patMap: map<string, Target>)
    ensures tunnels == TunnelsOf(ParsedLines(lines)) && patMap == PatMapOf(ParsedLines(lines))
  {
    ghost var decls := ParsedLines(lines);
    tunnels, patMap := [], map[];
    for k := 0 to |lines|
      invariant tunnels == TunnelsOf(decls[..k])
      invariant patMap == PatMapOf(decls[..k])
    {
      ghost var tunnels0, patMap0 := tunnels, patMap;
      tunnels, patMap := ApplyLine(lines[k], tunnels, patMap);
      FoldStep(decls, k, tunnels0, patMap0, tunnels, patMap);
    }
    FullPrefix(decls);
  }

  /** One more parsed line in the fold. */
  lemma FoldStep(decls: seq<Option<LineDecl>>, k: nat,
                 tunnels: seq<TunnelConfig>, patMap: map<string, Target>,
                 tunnels': seq<TunnelConfig>, patMap': map<string, Target>)
    requires k < |decls|
    requires tunnels == TunnelsOf(decls[..k]) && patMap == PatMapOf(decls[..k])
    requires tunnels' == tunnels + RecordsOf(decls[k]) && patMap' == patMap + TargetsOf(decls[k])
    ensures tunnels' == TunnelsOf(decls[..k + 1]) && patMap' == PatMapOf(decls[..k + 1])
  {
    PrefixStep(decls, k);
  }

  /** `validateConfig(env)`: throws when the setting is missing; otherwise
      walks its lines. */
  method ValidateConfig(env: Env) returns (r: Result<Config, ConfigError>)
    ensures r == ConfigOf(env)
  {
    if !Truthy(env.accountsList) {
      return Failure(MissingAccountsList);
    }
    var tunnels, patMap := ConfigureLines(Lines(env.accountsList.value));
    var telegram := Telegram(Truthy(env.tgBotToken) && Truthy(env.tgChatId), env.tgBotToken, env.tgChatId);
    return Success(Config(tunnels, patMap, telegram, env.alertOnlyOnError != Some("false")));
  }

  // ----- what the inventory promises -----

  /** Normalising the list first changes nothing: full-width punctuation is
      made ASCII before any splitting. */
  lemma NormalizedListSameConfig(env: Env)
    requires env.accountsList.Some?
    ensures ConfigOf(env.(accountsList := Some(Normalize(env.accountsList.value)))) == ConfigOf(env)
  {
    NormalizeIdempotent(env.accountsList.value);
  }

  /** A skipped line adds no tunnel record and no `patMap` entry. */
  lemma SkippedLineAddsNothing(decls: seq<Option<LineDecl>>, line: string)
    requires Skipped(line)
    ensures TunnelsOf(decls + [ParseLine(line)]) == TunnelsOf(decls)
    ensures PatMapOf(decls + [ParseLine(line)]) == PatMapOf(decls)
  {
    FrontOfSnoc(decls, ParseLine(line));
    AppendEmpty(TunnelsOf(decls));
  }

  /** The parsed line declares a workflow for this name. */
  predicate SetsTarget(decl: Option<LineDecl>, name: string) {
    decl.Some? && HasPat(decl.value) && name in decl.value.names
  }

  /** A name is in `patMap` exactly when some line declares a workflow for
      it, which takes a GitHub segment of three fields and a non-empty token. */
  lemma {:induction false} PatMapDomain(decls: seq<Option<LineDecl>>, name: string)
    ensures name in PatMapOf(decls) <==> exists k :: 0 <= k < |decls| && SetsTarget(decls[k], name)
  {
    if |decls| > 0 {
      var init := decls[..|decls| - 1];
      PatMapDomain(init, name);
      assert forall k :: 0 <= k < |init| ==> init[k] == decls[k];
    }
  }

  /** On a name declared by several lines, the last of them wins. */
  lemma {:induction false} PatMapLastWins(decls: seq<Option<LineDecl>>, name: string, k: nat)
    requires k < |decls| && SetsTarget(decls[k], name)
    requires forall j :: k < j < |decls| ==> !SetsTarget(decls[j], name)
    ensures name in PatMapOf(decls)
    ensures PatMapOf(decls)[name] == TargetOf(decls[k].value)
  {
    if k < |decls| - 1 {
      PatMapLastWins(decls[..|decls| - 1], name, k);
    }
  }

  /** Every tunnel record comes from a name of a line that parses, and
      carries that line's account id, token and alias. */
  lemma {:induction false} RecordsComeFromLines(decls: seq<Option<LineDecl>>, i: nat)
    requires i < |TunnelsOf(decls)|
    ensures exists k :: 0 <= k < |decls| && decls[k].Some?
                        && TunnelsOf(decls)[i] == TunnelFor(decls[k].value, TunnelsOf(decls)[i].name)
                        && TunnelsOf(decls)[i].name in decls[k].value.names
  {
    var init := decls[..|decls| - 1];
    var k := |decls| - 1;
    if i < |TunnelsOf(init)| {
      RecordsComeFromLines(init, i);
      var k' :| 0 <= k' < |init| && init[k'].Some?
                 && TunnelsOf(init)[i] == TunnelFor(init[k'].value, TunnelsOf(init)[i].name)
                 && TunnelsOf(init)[i].name in init[k'].value.names;
      assert decls[k'] == init[k'];
    } else {
      var j := i - |TunnelsOf(init)|;
      assert TunnelsOf(decls)[i] == LineTunnels(decls[k].value)[j];
    }
  }

  /** Every name of every line that parses has its record, with that line's
      account id, token and alias. */
  lemma {:induction false} LineNamesRecorded(decls: seq<Option<LineDecl>>, k: nat, name: string)
    requires k < |decls| && decls[k].Some? && name in decls[k].value.names
    ensures TunnelFor(decls[k].value, name) in TunnelsOf(decls)
  {
    if k < |decls| - 1 {
      LineNamesRecorded(decls[..|decls| - 1], k, name);
    } else {
      var d := decls[k].value;
      var j :| 0 <= j < |d.names| && d.names[j] == name;
      assert LineTunnels(d)[j] == TunnelFor(d, name);
    }
  }

  /** The number of names the parsed lines declare. */
  function NameCount(decls: seq<Option<LineDecl>>): nat {
    if |decls| == 0 then 0
    else NameCount(decls[..|decls| - 1])
         + match decls[|decls| - 1] case None => 0 case Some(d) => |d.names|
  }

  /** One record per declared name. */
  lemma {:induction false} OneRecordPerName(decls: seq<Option<LineDecl>>)
    ensures |TunnelsOf(decls)| == NameCount(decls)
  {
    if |decls| > 0 {
      OneRecordPerName(decls[..|decls| - 1]);
    }
  }

  // ----- the line format, written out, and the round trip through the parser -----

  /** A field that survives the parser verbatim: trimmed, free of the
      separators `,` `;` and newline and of the full-width punctuation. */
  predicate CleanField(f: string) {
    Trimmed(f) && ',' !in f && ';' !in f && '\n' !in f
    && FullWidthColon !in f && FullWidthComma !in f && FullWidthSemicolon !in f
  }

  /** A declaration the line format can express: clean fields, an alias
      without `:`, non-empty names. */
  predicate CleanDecl(d: LineDecl) {
    CleanField(d.alias) && ':' !in d.alias && CleanField(d.accountId) && CleanField(d.apiToken)
    && (forall k :: 0 <= k < |d.names| ==> d.names[k] != "" && CleanField(d.names[k]))
    && (d.gitHub.Some? ==> CleanField(d.gitHub.value.owner) && CleanField(d.gitHub.value.repo)
                           && CleanField(d.gitHub.value.pat))
  }

  /** `alias:accountId,apiToken,name,...`. */
  function RenderCloudflare(d: LineDecl): string {
    d.alias + ":" + Join([d.accountId, d.apiToken] + d.names, ',')
  }

  /** `GitHub:owner,repo,pat`. */
  function RenderGitHub(g: GitHubInfo): string {
    "GitHub:" + Join([g.owner, g.repo, g.pat], ',')
  }

  /** The line an operator writes for a declaration. */
  function RenderLine(d: LineDecl): string {
    match d.gitHub
    case None => RenderCloudflare(d)
    case Some(g) => RenderCloudflare(d) + ";" + RenderGitHub(g)
  }

  /** Characters absent from every field are absent from the Cloudflare segment. */
  lemma CloudflareAvoids(d: LineDecl, c: char)
    requires CleanDecl(d) && c in {';', '\n', FullWidthColon, FullWidthComma, FullWidthSemicolon}
    ensures c !in RenderCloudflare(d)
  {
    var fields := [d.accountId, d.apiToken] + d.names;
    assert forall k :: 0 <= k < |fields| ==> CleanField(fields[k]);
    JoinAvoids(fields, ',', c);
  }

  lemma GitHubAvoids(g: GitHubInfo, c: char)
    requires CleanField(g.owner) && CleanField(g.repo) && CleanField(g.pat)
    requires c in {';', '\n', FullWidthColon, FullWidthComma, FullWidthSemicolon}
    ensures c !in RenderGitHub(g)
  {
    JoinAvoids([g.owner, g.repo, g.pat], ',', c);
  }

  lemma RenderCloudflareTrimmed(d: LineDecl)
    requires CleanDecl(d)
    ensures Trimmed(RenderCloudflare(d)) && RenderCloudflare(d) != ""
  {
    var fields := [d.accountId, d.apiToken] + d.names;
    var details := Join(fields, ',');
    assert forall k :: 0 <= k < |fields| ==> CleanField(fields[k]);
    JoinTrimmed(fields, ',');
    var cf := RenderCloudflare(d);
    if d.alias != [] { assert cf[0] == d.alias[0]; } else { assert cf[0] == ':'; }
    assert |details| > 0;
    assert cf[|cf| - 1] == details[|details| - 1];
  }

  lemma RenderGitHubTrimmed(g: GitHubInfo)
    requires CleanField(g.owner) && CleanField(g.repo) && CleanField(g.pat)
    ensures Trimmed(RenderGitHub(g)) && RenderGitHub(g) != ""
  {
    var details := Join([g.owner, g.repo, g.pat], ',');
    JoinTrimmed([g.owner, g.repo, g.pat], ',');
    var r := RenderGitHub(g);
    assert r[0] == 'G';
    assert |details| > 0;
    assert r[|r| - 1] == details[|details| - 1];
  }

  lemma StripRenderedPrefix(g: GitHubInfo)
    ensures StripGitHubPrefix(RenderGitHub(g)) == Join([g.owner, g.repo, g.pat], ',')
  {
    var r := RenderGitHub(g);
    assert r[..7] == "GitHub:";
    assert seq(7, i requires 0 <= i < 7 => LowerAscii(r[i])) == "github:";
  }

  lemma SplitGitHubFields(g: GitHubInfo)
    requires CleanField(g.owner) && CleanField(g.repo) && CleanField(g.pat)
    ensures SplitOn(Join([g.owner, g.repo, g.pat], ','), {','}) == [g.owner, g.repo, g.pat]
  {
    SplitJoin([g.owner, g.repo, g.pat], ',', {','});
  }

  /** A GitHub segment whose cleaned text is the three fields joined parses to them. */
  lemma ParseGitHubFields(ghPart: string, g: GitHubInfo)
    requires CleanField(g.owner) && CleanField(g.repo) && CleanField(g.pat)
    requires Trim(StripGitHubPrefix(ghPart)) == Join([g.owner, g.repo, g.pat], ',')
    ensures ParseGitHub(ghPart) == Some(g)
  {
    SplitGitHubFields(g);
    var details := SplitOn(Trim(StripGitHubPrefix(ghPart)), {','});
    assert details == [g.owner, g.repo, g.pat];
    TrimOfTrimmed(g.owner);
    TrimOfTrimmed(g.repo);
    TrimOfTrimmed(g.pat);
    assert Trim(details[0]) == g.owner && Trim(details[1]) == g.repo && Trim(details[2]) == g.pat;
    assert ParseGitHub(ghPart) == Some(GitHubInfo(Trim(details[0]), Trim(details[1]), Trim(details[2])));
  }

  /** The GitHub segment parses back to its owner, repository and token. */
  lemma ParseRenderedGitHub(g: GitHubInfo)
    requires CleanField(g.owner) && CleanField(g.repo) && CleanField(g.pat)
    ensures ParseGitHub(RenderGitHub(g)) == Some(g)
  {
    var details := Join([g.owner, g.repo, g.pat], ',');
    StripRenderedPrefix(g);
    JoinTrimmed([g.owner, g.repo, g.pat], ',');
    TrimOfTrimmed(details);
    ParseGitHubFields(RenderGitHub(g), g);
  }

  /** The Cloudflare segment cuts at its first `:` into the alias and the comma fields. */
  lemma SplitRenderedCloudflare(d: LineDecl)
    requires CleanDecl(d)
    ensures IndexOfAny(RenderCloudflare(d), {':'}) == Some(|d.alias|)
    ensures RenderCloudflare(d)[..|d.alias|] == d.alias
    ensures SplitOn(RenderCloudflare(d)[|d.alias| + 1..], {','}) == [d.accountId, d.apiToken] + d.names
  {
    var fields := [d.accountId, d.apiToken] + d.names;
    var details := Join(fields, ',');
    var cf := RenderCloudflare(d);
    assert cf == d.alias + (":" + details);
    FirstSeparator(d.alias, ":" + details, {':'});
    assert cf[|d.alias| + 1..] == details;
    assert forall k :: 0 <= k < |fields| ==> CleanField(fields[k]);
    SplitJoin(fields, ',', {','});
  }

  /** The line splits at `;` into its Cloudflare and GitHub segments. */
  lemma SplitRenderedLine(d: LineDecl)
    requires CleanDecl(d)
    ensures d.gitHub.None? ==> SplitOn(RenderLine(d), {';'}) == [RenderCloudflare(d)]
    ensures d.gitHub.Some? ==> SplitOn(RenderLine(d), {';'}) == [RenderCloudflare(d), RenderGitHub(d.gitHub.value)]
  {
    var cf := RenderCloudflare(d);
    CloudflareAvoids(d, ';');
    match d.gitHub
    case None =>
      SplitJoin([cf], ';', {';'});
    case Some(g) =>
      GitHubAvoids(g, ';');
      assert Join([cf, RenderGitHub(g)], ';') == RenderLine(d);
      SplitJoin([cf, RenderGitHub(g)], ';', {';'});
  }

  /** `ParseSegments` once the first `:` of the Cloudflare segment is known. */
  lemma ParseSegmentsAt(cf: string, ghPart: Option<string>, i: nat)
    requires IndexOfAny(cf, {':'}) == Some(i)
    requires |SplitOn(cf[i + 1..], {','})| >= 2
    ensures var details := SplitOn(cf[i + 1..], {','});
            ParseSegments(cf, ghPart)
            == Some(LineDecl(Trim(cf[..i]), Trim(details[0]), Trim(details[1]), NonEmptyTrimmed(details[2..]),
                             match ghPart case None => None case Some(g) => ParseGitHub(g)))
  {
  }

  /** Segments that cut into the fields of a declaration parse to it. */
  lemma ParseSegmentsOfFields(cf: string, ghPart: Option<string>, d: LineDecl)
    requires CleanDecl(d)
    requires IndexOfAny(cf, {':'}) == Some(|d.alias|) && cf[..|d.alias|] == d.alias
    requires SplitOn(cf[|d.alias| + 1..], {','}) == [d.accountId, d.apiToken] + d.names
    requires (match ghPart case None => None case Some(g) => ParseGitHub(g)) == d.gitHub
    ensures ParseSegments(cf, ghPart) == Some(d)
  {
    var i := |d.alias|;
    var details := SplitOn(cf[i + 1..], {','});
    ParseSegmentsAt(cf, ghPart, i);
    TrimOfTrimmed(d.alias);
    TrimOfTrimmed(d.accountId);
    TrimOfTrimmed(d.apiToken);
    assert details[2..] == d.names;
    NonEmptyTrimmedOfClean(d.names);
  }

  /** The segments of a rendered line parse to the declaration they spell. */
  lemma ParseRenderedSegments(d: LineDecl)
    requires CleanDecl(d)
    ensures ParseSegments(RenderCloudflare(d), match d.gitHub case None => None case Some(g) => Some(RenderGitHub(g)))
            == Some(d)
  {
    SplitRenderedCloudflare(d);
    match d.gitHub {
      case None =>
      case Some(g) => ParseRenderedGitHub(g);
    }
    ParseSegmentsOfFields(RenderCloudflare(d), match d.gitHub case None => None case Some(g) => Some(RenderGitHub(g)), d);
  }

  /** A rendered line parses back to its declaration. */
  lemma ParseRenderedLine(d: LineDecl)
    requires CleanDecl(d)
    ensures ParseLine(RenderLine(d)) == Some(d)
  {
    var line := RenderLine(d);
    var cf := RenderCloudflare(d);
    SplitRenderedLine(d);
    RenderCloudflareTrimmed(d);
    TrimOfTrimmed(cf);
    assert CloudflarePart(line) == cf;
    match d.gitHub {
      case None =>
        assert GitHubPart(line) == None;
      case Some(g) =>
        RenderGitHubTrimmed(g);
        TrimOfTrimmed(RenderGitHub(g));
        assert GitHubPart(line) == Some(RenderGitHub(g));
    }
    ParseRenderedSegments(d);
  }

  lemma RenderLineShape(d: LineDecl)
    requires CleanDecl(d)
    ensures RenderLine(d) != "" && Trimmed(RenderLine(d))
    ensures '\n' !in RenderLine(d) && FullWidthColon !in RenderLine(d)
    ensures FullWidthComma !in RenderLine(d) && FullWidthSemicolon !in RenderLine(d)
  {
    var cf := RenderCloudflare(d);
    RenderCloudflareTrimmed(d);
    CloudflareAvoids(d, '\n');
    CloudflareAvoids(d, FullWidthColon);
    CloudflareAvoids(d, FullWidthComma);
    CloudflareAvoids(d, FullWidthSemicolon);
    match d.gitHub {
      case None =>
      case Some(g) =>
        var gh := RenderGitHub(g);
        RenderGitHubTrimmed(g);
        GitHubAvoids(g, '\n');
        GitHubAvoids(g, FullWidthColon);
        GitHubAvoids(g, FullWidthComma);
        GitHubAvoids(g, FullWidthSemicolon);
        var line := cf + ";" + gh;
        assert line[0] == cf[0] && line[|line| - 1] == gh[|gh| - 1];
    }
  }

  /** The setting an operator writes for these declarations, one per line. */
  function RenderList(ds: seq<LineDecl>): string {
    Join(seq(|ds|, i requires 0 <= i < |ds| => RenderLine(ds[i])), '\n')
  }

  /** The lines of a rendered setting are the rendered declarations. */
  lemma LinesOfRenderedList(ds: seq<LineDecl>)
    requires forall i :: 0 <= i < |ds| ==> CleanDecl(ds[i])
    requires |ds| >= 1
    ensures Lines(RenderList(ds)) == seq(|ds|, i requires 0 <= i < |ds| => RenderLine(ds[i]))
  {
    var lines := seq(|ds|, i requires 0 <= i < |ds| => RenderLine(ds[i]));
    var raw := RenderList(ds);
    forall i | 0 <= i < |lines|
      ensures lines[i] != "" && Trimmed(lines[i]) && '\n' !in lines[i]
      ensures FullWidthColon !in lines[i] && FullWidthComma !in lines[i] && FullWidthSemicolon !in lines[i]
    {
      RenderLineShape(ds[i]);
    }
    JoinAvoids(lines, '\n', FullWidthColon);
    JoinAvoids(lines, '\n', FullWidthComma);
    JoinAvoids(lines, '\n', FullWidthSemicolon);
    ReplaceAbsent(raw, FullWidthColon, ':');
    ReplaceAbsent(raw, FullWidthComma, ',');
    ReplaceAbsent(raw, FullWidthSemicolon, ';');
    assert Normalize(raw) == raw;
    SplitJoin(lines, '\n', {'\n'});
    NonEmptyTrimmedOfClean(lines);
  }

  /** Each rendered line parses back to its declaration. */
  lemma ParseRenderedLines(ds: seq<LineDecl>)
    requires forall i :: 0 <= i < |ds| ==> CleanDecl(ds[i])
    ensures ParsedLines(seq(|ds|, i requires 0 <= i < |ds| => RenderLine(ds[i])))
            == seq(|ds|, i requires 0 <= i < |ds| => Some(ds[i]))
  {
    forall i | 0 <= i < |ds| ensures ParseLine(RenderLine(ds[i])) == Some(ds[i]) {
      ParseRenderedLine(ds[i]);
    }
  }

  /** Writing clean declarations one per line and reading the setting back
      gives exactly their records and their `patMap`, in order. */
  lemma RenderedListConfig(env: Env, ds: seq<LineDecl>)
    requires |ds| >= 1
    requires forall i :: 0 <= i < |ds| ==> CleanDecl(ds[i])
    requires env.accountsList == Some(RenderList(ds))
    ensures ConfigOf(env).Success?
    ensures ConfigOf(env).value.tunnels == TunnelsOf(seq(|ds|, i requires 0 <= i < |ds| => Some(ds[i])))
    ensures ConfigOf(env).value.patMap == PatMapOf(seq(|ds|, i requires 0 <= i < |ds| => Some(ds[i])))
  {
    var lines := seq(|ds|, i requires 0 <= i < |ds| => RenderLine(ds[i]));
    LinesOfRenderedList(ds);
    ParseRenderedLines(ds);
    RenderLineShape(ds[0]);
    JoinHead(lines, '\n');
  }
}
