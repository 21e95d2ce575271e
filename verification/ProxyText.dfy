/** constructProxyYaml: the proxy configuration, made by cutting a JSON text at its last brace and appending to it. */
module ProxyTexts {
  import opened Names
  import opened Documents
  import opened Jsons
  import opened Replicas

  /* ---- the texts ---- */

  function Quote(s: string): string {
    "\"" + s + "\""
  }

  function Decimal(n: int): string {
    if n < 0 then "-" + Digits(-n) else Digits(n)
  }

  function Digits(n: nat): (r: string)
    ensures r != ""
  {
    if n < 10 then [Digit(n)] else Digits(n / 10) + [Digit(n % 10)]
  }

  function Digit(n: nat): char
    requires n < 10
  {
    '0' + n as char
  }

  /** The texts, with commas between them. */
  function Sep(texts: seq<string>): string {
    if texts == [] then ""
    else if |texts| == 1 then texts[0]
    else texts[0] + "," + Sep(texts[1..])
  }

  function MembersText(members: seq<(string, string)>): string {
    if members == [] then ""
    else
      var first := Quote(members[0].0) + ": " + members[0].1;
      if |members| == 1 then first else first + ", " + MembersText(members[1..])
  }

  /** An object as the operator formats it: { "name": value, "name": value } */
  function ObjText(members: seq<(string, string)>): string {
    "{ " + MembersText(members) + " }"
  }

  function ServerRefText(pod: string): string {
    ObjText([("name", Quote(pod))])
  }

  function SuffixText(suffix: string, idx: nat, servers: string): string {
    ObjText([("base", Quote(suffix)), ("name", Quote("split_" + Decimal(idx))), ("servers", servers)])
  }

  function Target(pod: string, config: ServerConfig): string {
    (if config.secure then "ldaps" else "ldap") + "://" + pod + ":" + Decimal(config.port)
  }

  function ServerText(pod: string, config: ServerConfig): string {
    ObjText([("name", Quote(pod)), ("id", Quote(pod)), ("target", Quote(Target(pod, config))),
             ("user", ObjText([("dn", Quote(config.adminDn)), ("password", Quote(config.adminPwd))]))])
  }

  function ServersText(names: seq<string>): string {
    "[" + Sep(seq(|names|, i requires 0 <= i < |names| => ServerRefText(names[i]))) + "]"
  }

  function SuffixesText(names: seq<string>, config: ServerConfig): string {
    "[" + Sep(seq(|config.suffixes|, i requires 0 <= i < |config.suffixes| =>
      SuffixText(config.suffixes[i], i, ServersText(names)))) + "]"
  }

  function ServerGroupsText(names: seq<string>, config: ServerConfig): string {
    "[ " + ObjText([("name", Quote("proxy")),
                    ("servers", "[" + Sep(seq(|names|, i requires 0 <= i < |names| => ServerText(names[i], config))) + "]")]) + " ]"
  }

  function ProxyText(json: string, names: seq<string>, config: ServerConfig): string
    requires '}' in json
  {
    json[..LastIndex(json, '}')] + ", " + Quote("proxy") + ": "
    + ObjText([("server-groups", ServerGroupsText(names, config)), ("suffixes", SuffixesText(names, config))]) + " }"
  }

  lemma SepAppend(texts: seq<string>, text: string)
    ensures Sep(texts + [text]) == if texts == [] then text else Sep(texts) + "," + text
  {
    if |texts| > 1 {
      assert (texts + [text])[1..] == texts[1..] + [text];
      SepAppend(texts[1..], text);
    } else if |texts| == 1 {
      assert (texts + [text])[1..] == [text];
    }
  }

  method BuildServers(names: seq<string>) returns (servers: string)
    ensures servers == ServersText(names)
  {
    servers := "";
    ghost var refs := seq(|names|, i requires 0 <= i < |names| => ServerRefText(names[i]));
    for idx := 0 to |names|
      invariant servers == Sep(refs[..idx])
    {
      assert refs[..idx + 1] == refs[..idx] + [refs[idx]];
      SepAppend(refs[..idx], refs[idx]);
      servers := servers + (if idx != 0 then "," else "") + ServerRefText(names[idx]);
    }
    assert refs[..|names|] == refs;
    servers := "[" + servers + "]";
  }

  method BuildSuffixes(names: seq<string>, config: ServerConfig, servers: string) returns (suffixes: string)
    requires servers == ServersText(names)
    ensures suffixes == SuffixesText(names, config)
  {
    suffixes := "";
    ghost var entries := seq(|config.suffixes|, i requires 0 <= i < |config.suffixes| =>
      SuffixText(config.suffixes[i], i, ServersText(names)));
    for idx := 0 to |config.suffixes|
      invariant suffixes == Sep(entries[..idx])
    {
      assert entries[..idx + 1] == entries[..idx] + [entries[idx]];
      SepAppend(entries[..idx], entries[idx]);
      suffixes := suffixes + (if idx != 0 then "," else "") + SuffixText(config.suffixes[idx], idx, servers);
    }
    assert entries[..|config.suffixes|] == entries;
    suffixes := "[" + suffixes + "]";
  }

  method BuildServerGroups(names: seq<string>, config: ServerConfig) returns (serverGroups: string)
    ensures serverGroups == ServerGroupsText(names, config)
  {
    var group := "";
    ghost var listed := seq(|names|, i requires 0 <= i < |names| => ServerText(names[i], config));
    for idx := 0 to |names|
      invariant group == Sep(listed[..idx])
    {
      assert listed[..idx + 1] == listed[..idx] + [listed[idx]];
      SepAppend(listed[..idx], listed[idx]);
      group := group + (if idx != 0 then "," else "") + ServerText(names[idx], config);
    }
    assert listed[..|names|] == listed;
    serverGroups := "[ " + ObjText([("name", Quote("proxy")), ("servers", "[" + group + "]")]) + " ]";
  }

  /**
   * Builds the configuration; without a closing brace in json, the source returns an empty configuration, and no error.
   * The final conversion of the JSON text to YAML is not part of this model.
   */
  method ConstructProxyYaml(directory: string, json: string, pvcs: seq<Pvc>, config: ServerConfig) returns (text: string)
    ensures text == if '}' in json then ProxyText(json, ReplicaNames(directory, pvcs), config) else ""
  {
    var closingIdx := LastIndex(json, '}');
    if closingIdx == -1 {
      return "";
    }
    var names: seq<string> := [];
    for i := 0 to |pvcs|
      invariant names == ReplicaNames(directory, pvcs[..i])
    {
      names := names + [ReplicaName(directory, pvcs[i])];
    }
    assert pvcs[..|pvcs|] == pvcs;
    var servers := BuildServers(names);
    var suffixes := BuildSuffixes(names, config, servers);
    var serverGroups := BuildServerGroups(names, config);
    text := json[..closingIdx] + ", " + Quote("proxy") + ": "
      + ObjText([("server-groups", serverGroups), ("suffixes", suffixes)]) + " }";
  }

  function ReplicaNames(directory: string, pvcs: seq<Pvc>): seq<string> {
    seq(|pvcs|, i requires 0 <= i < |pvcs| => ReplicaName(directory, pvcs[i]))
  }

  /* ---- the values ---- */

  function ServerRef(pod: string): Json {
    Obj([Member("name", Str(pod))])
  }

  function ServerRefs(names: seq<string>): Json {
    Arr(seq(|names|, i requires 0 <= i < |names| => ServerRef(names[i])))
  }

  function SuffixEntry(suffix: string, idx: nat, names: seq<string>): Json {
    Obj([Member("base", Str(suffix)), Member("name", Str("split_" + Decimal(idx))), Member("servers", ServerRefs(names))])
  }

  function ServerEntry(pod: string, config: ServerConfig): Json {
    Obj([Member("name", Str(pod)), Member("id", Str(pod)), Member("target", Str(Target(pod, config))),
         Member("user", Obj([Member("dn", Str(config.adminDn)), Member("password", Str(config.adminPwd))]))])
  }

  function SuffixEntries(names: seq<string>, config: ServerConfig): Json {
    Arr(seq(|config.suffixes|, i requires 0 <= i < |config.suffixes| => SuffixEntry(config.suffixes[i], i, names)))
  }

  function ServerGroups(names: seq<string>, config: ServerConfig): Json {
    Arr([Obj([Member("name", Str("proxy")),
              Member("servers", Arr(seq(|names|, i requires 0 <= i < |names| => ServerEntry(names[i], config))))])])
  }

  function ProxyMember(names: seq<string>, config: ServerConfig): Member {
    Member("proxy", Obj([Member("server-groups", ServerGroups(names, config)), Member("suffixes", SuffixEntries(names, config))]))
  }

  /* ---- the texts denote the values ---- */

  /** The string can stand between quotes as it is, and stands for itself (section 7). */
  predicate Plain(s: string) {
    forall c | c in s :: c != '"' && c != '\\' && c >= ' '
  }

  predicate AllPlain(names: seq<string>, config: ServerConfig) {
    && (forall n | n in names :: Plain(n))
    && (forall s | s in config.suffixes :: Plain(s))
    && Plain(config.adminDn) && Plain(config.adminPwd)
  }

  /** The text has these tokens, wherever it stands. */
  predicate Lexes(text: string, ts: seq<Token>) {
    && Lex(text) == Some(ts)
    && text != "" && !IsWordChar(text[0]) && !IsWordChar(text[|text| - 1])
  }

  lemma Cat(a: string, ts: seq<Token>, b: string, us: seq<Token>)
    requires Lexes(a, ts) && Lexes(b, us)
    ensures Lexes(a + b, ts + us)
  {
    LexAppend(a, b);
  }

  lemma LexStructural(c: char)
    requires Structural(c).Some?
    ensures Lexes([c], [Structural(c).value])
    ensures Lexes([c] + " ", [Structural(c).value]) && Lexes(" " + [c], [Structural(c).value])
  {
    var t := [Structural(c).value];
    assert [c][1..] == "" && " "[1..] == "" && t + [] == t && [] + t == t;
    LexAppend([c], " ");
    LexAppend(" ", [c]);
  }

  lemma LexPunctuation()
    ensures Lexes("{ ", [LBrace]) && Lexes(" }", [RBrace]) && Lexes("[", [LBracket]) && Lexes("]", [RBracket])
    ensures Lexes("[ ", [LBracket]) && Lexes(" ]", [RBracket])
    ensures Lexes(",", [Comma]) && Lexes(", ", [Comma]) && Lexes(": ", [Colon])
  {
    hide Lexes;
    assert "{ " == ['{'] + " " && " }" == " " + ['}'] && "[ " == ['['] + " " && " ]" == " " + [']'];
    assert ", " == [','] + " " && ": " == [':'] + " ";
    LexStructural('{');
    LexStructural('}');
    LexStructural('[');
    LexStructural(']');
    LexStructural(',');
    LexStructural(':');
  }

  lemma {:induction false} PlainEnd(s: string, k: nat)
    requires Plain(s) && 1 <= k <= |s| + 1
    ensures StringEnd(Quote(s), k) == Some(|s| + 1)
    decreases |s| - k
  {
    if k <= |s| {
      assert Quote(s)[k] == s[k - 1] && s[k - 1] in s;
      PlainEnd(s, k + 1);
    }
  }

  lemma LexQuote(s: string)
    requires Plain(s)
    ensures Lexes(Quote(s), [Text(s)])
  {
    PlainEnd(s, 1);
    assert Quote(s)[1..|s| + 1] == s && Quote(s)[|s| + 2..] == "";
    assert [Text(s)] + [] == [Text(s)];
  }

  lemma {:induction false} PlainDecimal(n: int)
    ensures Plain(Decimal(n))
  {
    PlainDigits(if n < 0 then -n else n);
  }

  lemma {:induction false} PlainDigits(n: nat)
    ensures Plain(Digits(n))
  {
    if n >= 10 {
      PlainDigits(n / 10);
    }
  }

  lemma {:induction false} LexSep(texts: seq<string>, items: seq<Json>)
    requires |texts| == |items| > 0
    requires forall i | 0 <= i < |texts| :: Lexes(texts[i], Toks(items[i]))
    ensures Lexes(Sep(texts), ItemToks(items))
    decreases |texts|
  {
    if |texts| > 1 {
      LexSep(texts[1..], items[1..]);
      LexPunctuation();
      hide Lexes;
      Cat(texts[0], Toks(items[0]), ",", [Comma]);
      Cat(texts[0] + ",", Toks(items[0]) + [Comma], Sep(texts[1..]), ItemToks(items[1..]));
    }
  }

  lemma LexArr(texts: seq<string>, items: seq<Json>)
    requires |texts| == |items|
    requires forall i | 0 <= i < |texts| :: Lexes(texts[i], Toks(items[i]))
    ensures Lexes("[" + Sep(texts) + "]", Toks(Arr(items)))
  {
    LexPunctuation();
    if items == [] {
      assert "[" + Sep(texts) + "]" == "[" + "]";
      Cat("[", [LBracket], "]", [RBracket]);
      assert Toks(Arr(items)) == [LBracket] + [RBracket];
    } else {
      LexSep(texts, items);
      hide Lexes;
      Cat("[", [LBracket], Sep(texts), ItemToks(items));
      Cat("[" + Sep(texts), [LBracket] + ItemToks(items), "]", [RBracket]);
    }
  }

  ghost predicate MemberLexes(text: (string, string), m: Member) {
    text.0 == m.name && Plain(m.name) && Lexes(text.1, Toks(m.value))
  }

  lemma LexMember(text: (string, string), m: Member)
    requires MemberLexes(text, m)
    ensures Lexes(Quote(text.0) + ": " + text.1, [Text(m.name), Colon] + Toks(m.value))
  {
    LexPunctuation();
    LexQuote(m.name);
    hide Lexes, Quote, Lex;
    Cat(Quote(m.name), [Text(m.name)], ": ", [Colon]);
    assert [Text(m.name)] + [Colon] == [Text(m.name), Colon];
    Cat(Quote(m.name) + ": ", [Text(m.name), Colon], text.1, Toks(m.value));
  }

  lemma {:induction false} LexMembers(texts: seq<(string, string)>, members: seq<Member>)
    requires |texts| == |members| > 0
    requires forall i | 0 <= i < |texts| :: MemberLexes(texts[i], members[i])
    ensures Lexes(MembersText(texts), MemberToks(members))
    decreases |texts|
  {
    LexMember(texts[0], members[0]);
    if |texts| > 1 {
      LexMembers(texts[1..], members[1..]);
      LexPunctuation();
      var first, ts := Quote(texts[0].0) + ": " + texts[0].1, [Text(members[0].name), Colon] + Toks(members[0].value);
      hide Lexes, Quote, Lex, Toks, MemberLexes;
      Cat(first, ts, ", ", [Comma]);
      Cat(first + ", ", ts + [Comma], MembersText(texts[1..]), MemberToks(members[1..]));
    }
  }

  lemma LexObj(texts: seq<(string, string)>, members: seq<Member>)
    requires |texts| == |members| > 0
    requires forall i | 0 <= i < |texts| :: MemberLexes(texts[i], members[i])
    ensures Lexes(ObjText(texts), Toks(Obj(members)))
  {
    LexPunctuation();
    LexMembers(texts, members);
    hide Lexes, Lex;
    Cat("{ ", [LBrace], MembersText(texts), MemberToks(members));
    Cat("{ " + MembersText(texts), [LBrace] + MemberToks(members), " }", [RBrace]);
  }

  lemma LexStr(name: string, s: string)
    requires Plain(name) && Plain(s)
    ensures MemberLexes((name, Quote(s)), Member(name, Str(s)))
  {
    LexQuote(s);
  }

  lemma LexServerRefs(names: seq<string>)
    requires forall n | n in names :: Plain(n)
    ensures Lexes(ServersText(names), Toks(ServerRefs(names)))
  {
    var texts := seq(|names|, i requires 0 <= i < |names| => ServerRefText(names[i]));
    var items := seq(|names|, i requires 0 <= i < |names| => ServerRef(names[i]));
    forall i | 0 <= i < |names| ensures Lexes(texts[i], Toks(items[i])) {
      LexStr("name", names[i]);
      LexObj([("name", Quote(names[i]))], [Member("name", Str(names[i]))]);
    }
    LexArr(texts, items);
  }

  lemma PlainSplit(idx: nat)
    ensures Plain("split_" + Decimal(idx)) && Plain("base") && Plain("name") && Plain("servers")
  {
    PlainDecimal(idx);
    hide Decimal;
  }

  lemma LexSuffix(suffix: string, idx: nat, names: seq<string>)
    requires Plain(suffix) && forall n | n in names :: Plain(n)
    ensures Lexes(SuffixText(suffix, idx, ServersText(names)), Toks(SuffixEntry(suffix, idx, names)))
  {
    hide MemberLexes, Lexes, ServersText, ServerRefs, Decimal, Quote, Toks, Plain;
    PlainSplit(idx);
    LexStr("base", suffix);
    LexStr("name", "split_" + Decimal(idx));
    LexServerRefs(names);
    LexNested("servers", ServersText(names), ServerRefs(names));
    LexObj([("base", Quote(suffix)), ("name", Quote("split_" + Decimal(idx))), ("servers", ServersText(names))],
           [Member("base", Str(suffix)), Member("name", Str("split_" + Decimal(idx))), Member("servers", ServerRefs(names))]);
  }

  lemma LexSuffixes(names: seq<string>, config: ServerConfig)
    requires AllPlain(names, config)
    ensures Lexes(SuffixesText(names, config), Toks(SuffixEntries(names, config)))
  {
    var texts := seq(|config.suffixes|, i requires 0 <= i < |config.suffixes| =>
      SuffixText(config.suffixes[i], i, ServersText(names)));
    var items := seq(|config.suffixes|, i requires 0 <= i < |config.suffixes| => SuffixEntry(config.suffixes[i], i, names));
    forall i | 0 <= i < |texts| ensures Lexes(texts[i], Toks(items[i])) {
      assert config.suffixes[i] in config.suffixes;
      LexSuffix(config.suffixes[i], i, names);
    }
    hide Lexes;
    LexArr(texts, items);
  }

  function UserTexts(config: ServerConfig): seq<(string, string)> {
    [("dn", Quote(config.adminDn)), ("password", Quote(config.adminPwd))]
  }

  lemma LexUser(config: ServerConfig)
    requires Plain(config.adminDn) && Plain(config.adminPwd)
    ensures Lexes(ObjText(UserTexts(config)), Toks(Obj([Member("dn", Str(config.adminDn)), Member("password", Str(config.adminPwd))])))
  {
    LexStr("dn", config.adminDn);
    LexStr("password", config.adminPwd);
    hide MemberLexes, Lexes;
    LexObj(UserTexts(config), [Member("dn", Str(config.adminDn)), Member("password", Str(config.adminPwd))]);
  }

  lemma PlainWords()
    ensures Plain("name") && Plain("id") && Plain("target") && Plain("user") && Plain("ldap") && Plain("ldaps") && Plain("://") && Plain(":")
  {
  }

  lemma LexNested(name: string, text: string, value: Json)
    requires Plain(name) && Lexes(text, Toks(value))
    ensures MemberLexes((name, text), Member(name, value))
  {
  }

  lemma LexServer(pod: string, config: ServerConfig)
    requires Plain(pod) && Plain(config.adminDn) && Plain(config.adminPwd)
    ensures Lexes(ServerText(pod, config), Toks(ServerEntry(pod, config)))
  {
    PlainDecimal(config.port);
    PlainWords();
    assert Plain(Target(pod, config));
    hide MemberLexes, Lexes, Target, Toks, Plain, Quote;
    LexStr("name", pod);
    LexStr("id", pod);
    LexStr("target", Target(pod, config));
    LexUser(config);
    var user := [Member("dn", Str(config.adminDn)), Member("password", Str(config.adminPwd))];
    LexNested("user", ObjText(UserTexts(config)), Obj(user));
    LexObj([("name", Quote(pod)), ("id", Quote(pod)), ("target", Quote(Target(pod, config))), ("user", ObjText(UserTexts(config)))],
           [Member("name", Str(pod)), Member("id", Str(pod)), Member("target", Str(Target(pod, config))), Member("user", Obj(user))]);
  }

  lemma LexServers(names: seq<string>, config: ServerConfig)
    requires AllPlain(names, config)
    ensures var texts := seq(|names|, i requires 0 <= i < |names| => ServerText(names[i], config));
      var items := seq(|names|, i requires 0 <= i < |names| => ServerEntry(names[i], config));
      Lexes("[" + Sep(texts) + "]", Toks(Arr(items)))
  {
    hide Lexes, ServerText, ServerEntry, Plain, Toks;
    var texts := seq(|names|, i requires 0 <= i < |names| => ServerText(names[i], config));
    var items := seq(|names|, i requires 0 <= i < |names| => ServerEntry(names[i], config));
    forall i | 0 <= i < |texts| ensures Lexes(texts[i], Toks(items[i])) {
      assert names[i] in names;
      LexServer(names[i], config);
    }
    LexArr(texts, items);
  }

  /** An array of one object. */
  lemma LexOne(text: string, obj: Json)
    requires Lexes(text, Toks(obj))
    ensures Lexes("[ " + text + " ]", Toks(Arr([obj])))
  {
    OneItem(obj);
    LexPunctuation();
    hide Lexes, Toks;
    Cat("[ ", [LBracket], text, Toks(obj));
    Cat("[ " + text, [LBracket] + Toks(obj), " ]", [RBracket]);
  }

  lemma OneItem(obj: Json)
    ensures Toks(Arr([obj])) == [LBracket] + Toks(obj) + [RBracket]
  {
  }

  lemma LexServerGroups(names: seq<string>, config: ServerConfig)
    requires AllPlain(names, config)
    ensures Lexes(ServerGroupsText(names, config), Toks(ServerGroups(names, config)))
  {
    hide MemberLexes, Lexes, ObjText, Toks, ServerText, ServerEntry, Plain, Quote, Sep;
    var texts := seq(|names|, i requires 0 <= i < |names| => ServerText(names[i], config));
    var items := seq(|names|, i requires 0 <= i < |names| => ServerEntry(names[i], config));
    var list := "[" + Sep(texts) + "]";
    GroupWords();
    LexServers(names, config);
    LexStr("name", "proxy");
    LexNested("servers", list, Arr(items));
    var groupTexts := [("name", Quote("proxy")), ("servers", list)];
    var group := [Member("name", Str("proxy")), Member("servers", Arr(items))];
    LexObj(groupTexts, group);
    LexOne(ObjText(groupTexts), Obj(group));
  }

  lemma GroupWords()
    ensures Plain("name") && Plain("proxy") && Plain("servers") && Plain("server-groups") && Plain("suffixes")
  {
  }

  /** What constructProxyYaml puts behind the cut. */
  function Appended(names: seq<string>, config: ServerConfig): string {
    ", " + Quote("proxy") + ": "
    + ObjText([("server-groups", ServerGroupsText(names, config)), ("suffixes", SuffixesText(names, config))]) + " }"
  }

  function MemberTexts(names: seq<string>, config: ServerConfig): seq<(string, string)> {
    [("server-groups", ServerGroupsText(names, config)), ("suffixes", SuffixesText(names, config))]
  }

  lemma LexProxyObject(names: seq<string>, config: ServerConfig)
    requires AllPlain(names, config)
    ensures Lexes(ObjText(MemberTexts(names, config)), Toks(ProxyMember(names, config).value))
  {
    hide Lexes, MemberLexes, ServerGroupsText, SuffixesText, ServerGroups, SuffixEntries, Toks, Plain;
    GroupWords();
    LexServerGroups(names, config);
    LexSuffixes(names, config);
    LexNested("server-groups", ServerGroupsText(names, config), ServerGroups(names, config));
    LexNested("suffixes", SuffixesText(names, config), SuffixEntries(names, config));
    LexObj(MemberTexts(names, config), ProxyMember(names, config).value.members);
  }

  lemma LexAppended(names: seq<string>, config: ServerConfig)
    requires AllPlain(names, config)
    ensures Lexes(Appended(names, config), [Comma] + MemberToks([ProxyMember(names, config)]) + [RBrace])
  {
    LexProxyObject(names, config);
    var value, text := ProxyMember(names, config), ObjText(MemberTexts(names, config));
    var member := Quote("proxy") + ": " + text;
    assert Appended(names, config) == ", " + member + " }";
    assert Plain("proxy");
    LexPunctuation();
    var ts := MemberToks([value]);
    assert ts == [Text("proxy"), Colon] + Toks(value.value);
    assert MemberLexes(("proxy", text), value);
    hide *;
    LexMember(("proxy", text), value);
    Cat(", ", [Comma], member, ts);
    Cat(", " + member, [Comma] + ts, " }", [RBrace]);
  }

  lemma {:induction false} MemberToksAppend(members: seq<Member>, m: Member)
    requires members != []
    ensures MemberToks(members + [m]) == MemberToks(members) + [Comma] + MemberToks([m])
    decreases |members|
  {
    assert (members + [m])[1..] == members[1..] + [m];
    if |members| > 1 {
      MemberToksAppend(members[1..], m);
    }
  }

  lemma Regroup(a: seq<Token>, b: seq<Token>, c: seq<Token>, d: seq<Token>, e: seq<Token>)
    ensures (a + b) + (c + d + e) == a + b + c + d + e == a + (b + c + d) + e
  {
  }

  /** The tokens of the result: those of the base without its last brace, and then those of what is appended. */
  lemma ProxyTextToks(json: string, base: seq<Member>, names: seq<string>, config: ServerConfig)
    requires Denotes(json, Obj(base)) && AllPlain(names, config)
    ensures '}' in json
    ensures Lex(ProxyText(json, names, config))
            == Some([LBrace] + MemberToks(base) + [Comma] + MemberToks([ProxyMember(names, config)]) + [RBrace])
  {
    var before, added := MemberToks(base), MemberToks([ProxyMember(names, config)]);
    assert Toks(Obj(base)) == [LBrace] + before + [RBrace];
    CutAtLastBrace(json, [LBrace] + before);
    LexAppended(names, config);
    var head, tail := json[..LastIndex(json, '}')], Appended(names, config);
    assert tail != "" && !IsWordChar(tail[0]) && Lex(tail) == Some([Comma] + added + [RBrace]);
    assert ProxyText(json, names, config) == head + tail by {
      AppendedText(head, names, config);
    }
    hide Lex, LastIndex, ProxyText, Appended, MemberToks, Toks, ProxyMember;
    LexAppend(head, tail);
    Regroup([LBrace], before, [Comma], added, [RBrace]);
  }

  lemma AppendedText(head: string, names: seq<string>, config: ServerConfig)
    ensures head + ", " + Quote("proxy") + ": " + ObjText(MemberTexts(names, config)) + " }" == head + Appended(names, config)
  {
    var a, b: string := Quote("proxy"), ObjText(MemberTexts(names, config));
    assert Appended(names, config) == ", " + a + ": " + b + " }";
    hide *;
    assert head + ", " + a + ": " + b + " }" == head + (", " + a + ": " + b + " }");
  }

  /** On a base object with members, the text surgery adds exactly one member, the operator's, at the end. */
  lemma SurgeryIsInsertion(json: string, base: seq<Member>, names: seq<string>, config: ServerConfig)
    requires Denotes(json, Obj(base)) && base != [] && AllPlain(names, config)
    ensures '}' in json && Denotes(ProxyText(json, names, config), Obj(base + [ProxyMember(names, config)]))
  {
    ProxyTextToks(json, base, names, config);
    var m := ProxyMember(names, config);
    MemberToksAppend(base, m);
    assert Toks(Obj(base + [m])) == [LBrace] + MemberToks(base + [m]) + [RBrace];
    Regroup([LBrace], MemberToks(base), [Comma], MemberToks([m]), [RBrace]);
  }

  lemma NoCommaAfterBrace(j: Json)
    ensures |Toks(j)| > 1 && Toks(j)[0] == LBrace ==> Toks(j)[1] != Comma
  {
    if j.Obj? {
      MemberStart(j.members, []);
      assert Toks(j)[1..] == MemberToks(j.members) + ([RBrace] + []);
    }
  }

  /** The result is a JSON text exactly when the base object has a member: a comma is appended in any case. */
  lemma SurgeryNeedsMember(json: string, base: seq<Member>, names: seq<string>, config: ServerConfig)
    requires Denotes(json, Obj(base)) && AllPlain(names, config)
    ensures '}' in json
    ensures (exists j :: Denotes(ProxyText(json, names, config), j)) <==> base != []
  {
    ProxyTextToks(json, base, names, config);
    var text := ProxyText(json, names, config);
    if base != [] {
      SurgeryIsInsertion(json, base, names, config);
    } else {
      var ts := Lex(text).value;
      assert ts[0] == LBrace && ts[1] == Comma;
      forall j ensures !Denotes(text, j) {
        NoCommaAfterBrace(j);
      }
    }
  }

  function MemberNames(members: seq<Member>): seq<string> {
    seq(|members|, i requires 0 <= i < |members| => members[i].name)
  }

  /** Names within the result are unique (section 4) exactly when the base has unique names and no proxy member of its own. */
  lemma SurgeryKeepsNamesUnique(base: seq<Member>, names: seq<string>, config: ServerConfig)
    ensures Distinct(MemberNames(base + [ProxyMember(names, config)]))
            <==> Distinct(MemberNames(base)) && "proxy" !in MemberNames(base)
  {
    var all := MemberNames(base + [ProxyMember(names, config)]);
    assert all == MemberNames(base) + ["proxy"];
    if "proxy" in MemberNames(base) {
      var i :| 0 <= i < |base| && MemberNames(base)[i] == "proxy";
      assert all[i] == all[|base|];
    }
    if Distinct(all) {
      forall i, j | 0 <= i < j < |base| ensures MemberNames(base)[i] != MemberNames(base)[j] {
        assert all[i] != all[j];
      }
    }
  }

  /* ---- reading the values ---- */

  predicate AllDigits(s: string) {
    forall i | 0 <= i < |s| :: '0' <= s[i] <= '9'
  }

  /** The number which the digits write, by their places. */
  function Value(s: string): int
    requires AllDigits(s)
  {
    if s == "" then 0 else Value(s[..|s| - 1]) * 10 + (s[|s| - 1] as int - '0' as int)
  }

  /** The number which the text writes: digits, behind a minus sign if it is negative. */
  function ReadNumber(s: string): Option<int> {
    if s != "" && AllDigits(s) then Some(Value(s))
    else if |s| > 1 && s[0] == '-' && AllDigits(s[1..]) then Some(-Value(s[1..]))
    else None
  }

  lemma {:induction false} DigitsRead(n: nat)
    ensures AllDigits(Digits(n)) && Value(Digits(n)) == n
  {
    if n >= 10 {
      DigitsRead(n / 10);
      assert Digits(n)[..|Digits(n)| - 1] == Digits(n / 10);
    }
  }

  lemma DecimalReads(n: int)
    ensures ReadNumber(Decimal(n)) == Some(n) && ':' !in Decimal(n) && Decimal(n) != ""
  {
    DigitsRead(if n < 0 then -n else n);
    if n < 0 {
      assert Decimal(n)[1..] == Digits(-n) && Decimal(n)[0] == '-';
      assert forall i | 0 < i < |Decimal(n)| :: Decimal(n)[i] == Digits(-n)[i - 1];
    }
  }

  lemma DigitsAreInjective(m: nat, n: nat)
    ensures Digits(m) == Digits(n) ==> m == n
  {
    DigitsRead(m);
    DigitsRead(n);
  }

  /** Where a server listens. */
  datatype Address = Address(scheme: string, host: string, port: int)

  predicate MarkAt(s: string, i: nat) {
    i + 3 <= |s| && s[i..i + 3] == "://"
  }

  /** The index of the first :// at or behind k, or the length. */
  function SchemeEnd(s: string, k: nat): (e: nat)
    requires k <= |s|
    ensures k <= e <= |s| && (e < |s| ==> MarkAt(s, e))
    ensures forall i | k <= i < e :: !MarkAt(s, i)
    decreases |s| - k
  {
    if k == |s| || MarkAt(s, k) then k else SchemeEnd(s, k + 1)
  }

  /** A target as the proxy reads it: the scheme up to the first ://, the host up to the last colon, and the port. */
  function ReadTarget(s: string): Option<Address> {
    var e := SchemeEnd(s, 0);
    if e == |s| then None
    else
      var rest := s[e + 3..];
      var c := LastIndex(rest, ':');
      if c < 0 || ReadNumber(rest[c + 1..]) == None then None
      else Some(Address(s[..e], rest[..c], ReadNumber(rest[c + 1..]).value))
  }

  lemma SchemeEnds(scheme: string, rest: string)
    requires ':' !in scheme
    ensures SchemeEnd(scheme + "://" + rest, 0) == |scheme|
  {
    hide SchemeEnd;
    var s := scheme + "://" + rest;
    assert MarkAt(s, |scheme|) by {
      Halves(scheme, "://", rest);
      assert s[|scheme|..|scheme| + 3] == s[|scheme|..][..3];
    }
    forall i | 0 <= i < |scheme| ensures !MarkAt(s, i) {
      assert s[i] == scheme[i] && scheme[i] in scheme;
    }
  }

  lemma LastColon(host: string, port: string)
    requires ':' !in port
    ensures LastIndex(host + ":" + port, ':') == |host|
  {
    hide LastIndex;
    NoneBehind(host, port);
    LastIndexIs(host + ":" + port, |host|);
  }

  lemma LastIndexIs(s: string, k: nat)
    requires k < |s| && s[k] == ':' && forall i | k < i < |s| :: s[i] != ':'
    ensures LastIndex(s, ':') == k
  {
    hide LastIndex;
  }

  lemma NoneBehind(host: string, port: string)
    requires ':' !in port
    ensures var s := host + ":" + port; s[|host|] == ':' && forall i | |host| < i < |s| :: s[i] != ':'
  {
    var s := host + ":" + port;
    assert |s| == |host| + 1 + |port|;
    assert s[|host|] == ':';
    forall i | |host| < i < |s| ensures s[i] != ':' {
      var j := i - |host| - 1;
      assert s[i] == port[j] && port[j] in port;
    }
  }

  lemma Halves(a: string, b: string, c: string)
    ensures (a + b + c)[..|a|] == a && (a + b + c)[|a| + |b|..] == c
  {
  }

  lemma AddressReads(scheme: string, host: string, port: string, n: int)
    requires ':' !in scheme && ':' !in port && ReadNumber(port) == Some(n)
    ensures ReadTarget(scheme + "://" + (host + ":" + port)) == Some(Address(scheme, host, n))
  {
    SchemeEnds(scheme, host + ":" + port);
    Halves(scheme, "://", host + ":" + port);
    LastColon(host, port);
    Halves(host, ":", port);
    hide ReadNumber, SchemeEnd, LastIndex;
  }

  lemma TargetParts(pod: string, config: ServerConfig)
    ensures Target(pod, config)
            == (if config.secure then "ldaps" else "ldap") + "://" + (pod + ":" + Decimal(config.port))
  {
  }

  /** A target is read as what it was made of: ldaps exactly with a secure port, the replica, and the port. */
  lemma TargetReads(pod: string, config: ServerConfig)
    ensures ReadTarget(Target(pod, config)) == Some(Address(if config.secure then "ldaps" else "ldap", pod, config.port))
  {
    hide Target, ReadTarget, Decimal, ReadNumber;
    TargetParts(pod, config);
    DecimalReads(config.port);
    AddressReads(if config.secure then "ldaps" else "ldap", pod, Decimal(config.port), config.port);
  }

  /** A target tells its port. */
  lemma TargetTellsPort(pod: string, config: ServerConfig, port: int)
    ensures Target(pod, config) == Target(pod, config.(port := port)) <==> config.port == port
  {
    TargetReads(pod, config);
    TargetReads(pod, config.(port := port));
    hide Target, ReadTarget;
    assert config.port == port ==> config.(port := port) == config;
  }

  /** The value of the first member of this name. */
  function Find(members: seq<Member>, name: string): Option<Json> {
    if members == [] then None
    else if members[0].name == name then Some(members[0].value)
    else Find(members[1..], name)
  }

  function Field(j: Json, name: string): Option<Json> {
    if j.Obj? then Find(j.members, name) else None
  }

  /** The value is a server of the proxy: this replica, at its address, and the account to bind with. */
  ghost predicate IsServer(j: Json, pod: string, config: ServerConfig) {
    var target, user := Field(j, "target"), Field(j, "user");
    && Field(j, "name") == Some(Json.Str(pod)) && Field(j, "id") == Some(Json.Str(pod))
    && target.Some? && target.value.Str?
    && ReadTarget(target.value.lexeme) == Some(Address(if config.secure then "ldaps" else "ldap", pod, config.port))
    && user.Some? && Field(user.value, "dn") == Some(Json.Str(config.adminDn))
    && Field(user.value, "password") == Some(Json.Str(config.adminPwd))
  }

  /** The value is a split: this suffix, the name with its number, and references to these servers in their order. */
  ghost predicate IsSplit(j: Json, suffix: string, number: nat, names: seq<string>) {
    var name, servers := Field(j, "name"), Field(j, "servers");
    && Field(j, "base") == Some(Json.Str(suffix))
    && name.Some? && name.value.Str? && |name.value.lexeme| > 6
    && name.value.lexeme[..6] == "split_" && ReadNumber(name.value.lexeme[6..]) == Some(number)
    && servers.Some? && servers.value.Arr? && |servers.value.items| == |names|
    && forall k | 0 <= k < |names| :: Field(servers.value.items[k], "name") == Some(Json.Str(names[k]))
  }

  /** The value is one group, of exactly these replicas as servers. */
  ghost predicate IsGroup(j: Json, names: seq<string>, config: ServerConfig) {
    && j.Arr? && |j.items| == 1 && Field(j.items[0], "name") == Some(Json.Str("proxy"))
    && var servers := Field(j.items[0], "servers");
      && servers.Some? && servers.value.Arr? && |servers.value.items| == |names|
      && forall k | 0 <= k < |names| :: IsServer(servers.value.items[k], names[k], config)
  }

  /** The value is what the proxy is to be configured with: that group, and a split for each suffix. */
  ghost predicate IsProxy(j: Json, names: seq<string>, config: ServerConfig) {
    var groups, splits := Field(j, "server-groups"), Field(j, "suffixes");
    && groups.Some? && IsGroup(groups.value, names, config)
    && splits.Some? && splits.value.Arr? && |splits.value.items| == |config.suffixes|
    && forall i | 0 <= i < |config.suffixes| :: IsSplit(splits.value.items[i], config.suffixes[i], i, names)
  }

  lemma {:induction false} FindAt(members: seq<Member>, k: nat)
    requires k < |members| && forall i | 0 <= i < k :: members[i].name != members[k].name
    ensures Find(members, members[k].name) == Some(members[k].value)
  {
    if k > 0 {
      FindAt(members[1..], k - 1);
    }
  }

  lemma ServerReads(pod: string, config: ServerConfig)
    ensures IsServer(ServerEntry(pod, config), pod, config)
  {
    TargetReads(pod, config);
    hide Target, ReadTarget;
    var members := ServerEntry(pod, config).members;
    FindAt(members, 0);
    FindAt(members, 1);
    FindAt(members, 2);
    FindAt(members, 3);
    FindAt(members[3].value.members, 0);
    FindAt(members[3].value.members, 1);
  }

  lemma SplitReads(suffix: string, idx: nat, names: seq<string>)
    ensures IsSplit(SuffixEntry(suffix, idx, names), suffix, idx, names)
  {
    DecimalReads(idx);
    hide Decimal, ReadNumber;
    var members := SuffixEntry(suffix, idx, names).members;
    var name: string := "split_" + Decimal(idx);
    assert name[..6] == "split_" && name[6..] == Decimal(idx);
    FindAt(members, 0);
    FindAt(members, 1);
    FindAt(members, 2);
    forall k | 0 <= k < |names| ensures Field(ServerRefs(names).items[k], "name") == Some(Json.Str(names[k])) {
      FindAt(ServerRef(names[k]).members, 0);
    }
  }

  /** What is generated reads as what the proxy is to be configured with. */
  lemma ProxyReads(names: seq<string>, config: ServerConfig)
    ensures ProxyMember(names, config).name == "proxy" && IsProxy(ProxyMember(names, config).value, names, config)
  {
    hide IsServer, IsSplit, ServerEntry, SuffixEntry;
    var members := ProxyMember(names, config).value.members;
    FindAt(members, 0);
    FindAt(members, 1);
    var group := ServerGroups(names, config).items[0];
    FindAt(group.members, 0);
    FindAt(group.members, 1);
    forall k | 0 <= k < |names| ensures IsServer(group.members[1].value.items[k], names[k], config) {
      ServerReads(names[k], config);
    }
    forall i | 0 <= i < |config.suffixes| ensures IsSplit(SuffixEntries(names, config).items[i], config.suffixes[i], i, names) {
      SplitReads(config.suffixes[i], i, names);
    }
  }

  /** The splits of different suffixes have different names, and all of them list the servers of the group, in its order. */
  lemma SplitsAreSound(names: seq<string>, config: ServerConfig, i: nat, j: nat)
    requires i < j < |config.suffixes|
    ensures var entries := SuffixEntries(names, config).items;
      && entries[i].members[1].value != entries[j].members[1].value
      && entries[i].members[2].value == entries[j].members[2].value
    ensures var group := ServerGroups(names, config).items[0].members[1].value.items;
      |group| == |names| && forall k | 0 <= k < |names| ::
        SuffixEntries(names, config).items[i].members[2].value.items[k].members[0] == group[k].members[0]
  {
    DigitsAreInjective(i, j);
    assert ("split_" + Decimal(i))[6..] == Decimal(i) && ("split_" + Decimal(j))[6..] == Decimal(j);
  }

  /** A group of the value has a server of this name. */
  ghost predicate GroupsServe(groups: Json, name: string) {
    groups.Arr? && exists g | 0 <= g < |groups.items| ::
      var servers := Field(groups.items[g], "servers");
      && servers.Some? && servers.value.Arr?
      && exists k | 0 <= k < |servers.value.items| :: Field(servers.value.items[k], "name") == Some(Json.Str(name))
  }

  /** The text is an object whose last member configures the proxy, with a server of this name. */
  ghost predicate ListsServer(text: string, name: string) {
    exists members: seq<Member> | members != [] && Denotes(text, Obj(members)) ::
      var last := members[|members| - 1];
      last.name == "proxy" && Field(last.value, "server-groups").Some?
      && GroupsServe(Field(last.value, "server-groups").value, name)
  }

  lemma GroupServes(groups: Json, names: seq<string>, config: ServerConfig, name: string)
    requires IsGroup(groups, names, config)
    ensures GroupsServe(groups, name) <==> name in names
  {
    var servers := Field(groups.items[0], "servers").value.items;
    forall k | 0 <= k < |names| ensures Field(servers[k], "name") == Some(Json.Str(names[k])) {
      assert IsServer(servers[k], names[k], config);
    }
    hide IsServer, Field;
    if name in names {
      var k :| 0 <= k < |names| && names[k] == name;
      assert Field(servers[k], "name") == Some(Json.Str(name));
    }
  }

  /** The servers it lists are exactly those which were generated into it. */
  lemma ListsExactly(text: string, base: seq<Member>, names: seq<string>, config: ServerConfig, name: string)
    requires Denotes(text, Obj(base + [ProxyMember(names, config)]))
    ensures ListsServer(text, name) <==> name in names
  {
    hide IsGroup, IsSplit, ProxyMember, GroupsServe, Denotes, Field;
    var m := ProxyMember(names, config);
    var all := base + [m];
    assert all[|all| - 1] == m;
    ProxyReads(names, config);
    GroupServes(Field(m.value, "server-groups").value, names, config, name);
    if ListsServer(text, name) {
      var members: seq<Member> :| members != [] && Denotes(text, Obj(members))
        && members[|members| - 1].name == "proxy" && Field(members[|members| - 1].value, "server-groups").Some?
        && GroupsServe(Field(members[|members| - 1].value, "server-groups").value, name);
      DenotesOne(text, Obj(all), Obj(members));
    }
  }
}
