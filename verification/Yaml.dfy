/** Parsed YAML trees: their conversion to maps with string keys, looking a value up, and references to secrets. */
module Yamls {
  import opened Documents

  datatype Key = Text(text: string) | NoText(id: int)

  /** A parser makes AnyMap only; StrMap is what a conversion makes of it. */
  datatype Yaml =
    | Nil
    | Str(text: string)
    | Int(value: int)
    | Other(word: string)
    | AnyMap(entries: map<Key, Yaml>)
    | StrMap(fields: map<string, Yaml>)
    | List(items: seq<Yaml>)

  /** Every key the conversion comes to is a string. */
  predicate StringKeys(y: Yaml) {
    match y
    case AnyMap(entries) => forall k | k in entries :: k.Text? && StringKeys(entries[k])
    case List(items) => forall i | 0 <= i < |items| :: StringKeys(items[i])
    case _ => true
  }

  function Keys(entries: map<Key, Yaml>): set<string> {
    set k | k in entries && k.Text? :: k.text
  }

  function Convert(y: Yaml): Yaml
    requires StringKeys(y)
  {
    match y
    case AnyMap(entries) => StrMap(map k | k in Keys(entries) :: Convert(entries[Text(k)]))
    case List(items) => List(seq(|items|, i requires 0 <= i < |items| => Convert(items[i])))
    case _ => y
  }

  /** None where the source panics: on a key which is no string. */
  method ConvertYaml(y: Yaml) returns (r: Option<Yaml>)
    ensures r.Some? <==> StringKeys(y)
    ensures r.Some? ==> r.value == Convert(y)
    decreases y
  {
    match y {
      case AnyMap(entries) =>
        var fields: map<string, Yaml> := map[];
        var rest := entries.Keys;
        while rest != {}
          invariant rest <= entries.Keys
          invariant forall k | k in entries && k !in rest :: k.Text? && StringKeys(entries[k])
          invariant forall k :: k in fields <==> Text(k) in entries && Text(k) !in rest
          invariant forall k | k in fields :: fields[k] == Convert(entries[Text(k)])
        {
          var key :| key in rest;
          rest := rest - {key};
          if !key.Text? {
            return None;
          }
          var value := ConvertYaml(entries[key]);
          if value == None {
            return None;
          }
          fields := fields[key.text := value.value];
        }
        return Some(StrMap(fields));
      case List(items) =>
        var converted := items;
        for i := 0 to |items|
          invariant |converted| == |items|
          invariant forall j | 0 <= j < i :: StringKeys(items[j]) && converted[j] == Convert(items[j])
          invariant forall j | i <= j < |items| :: converted[j] == items[j]
        {
          var value := ConvertYaml(items[i]);
          if value == None {
            return None;
          }
          converted := converted[i := value.value];
        }
        return Some(List(converted));
      case _ => return Some(y);
    }
  }

  /** Converting again changes nothing, and cannot panic. */
  lemma {:induction false} ConvertIsIdempotent(y: Yaml)
    requires StringKeys(y)
    ensures StringKeys(Convert(y)) && Convert(Convert(y)) == Convert(y)
  {
    if y.List? {
      forall i | 0 <= i < |y.items| ensures StringKeys(Convert(y).items[i]) && Convert(Convert(y).items[i]) == Convert(y).items[i] {
        ConvertIsIdempotent(y.items[i]);
      }
    }
  }

  /** The value at a path, Nil when there is none; only converted maps are looked into. */
  function GetYamlValue(y: Yaml, key: seq<string>): Yaml
    requires key != []
  {
    if !y.StrMap? || key[0] !in y.fields then Nil
    else if |key| == 1 then y.fields[key[0]]
    else GetYamlValue(y.fields[key[0]], key[1..])
  }

  /** The value at a path of a tree as it was parsed. */
  function Lookup(y: Yaml, key: seq<string>): Option<Yaml>
    requires key != []
  {
    if !y.AnyMap? || Text(key[0]) !in y.entries then None
    else if |key| == 1 then Some(y.entries[Text(key[0])])
    else Lookup(y.entries[Text(key[0])], key[1..])
  }

  /** What a parser makes: nothing in the tree has been converted. */
  predicate Parsed(y: Yaml) {
    match y
    case AnyMap(entries) => forall k | k in entries :: Parsed(entries[k])
    case List(items) => forall i | 0 <= i < |items| :: Parsed(items[i])
    case StrMap(_) => false
    case _ => true
  }

  /** Conversion preserves lookup: nothing is found exactly where there is nothing or the null value. */
  lemma {:induction false} ConvertPreservesLookup(y: Yaml, key: seq<string>)
    requires Parsed(y) && StringKeys(y) && key != []
    ensures Lookup(y, key).Some? ==> Parsed(Lookup(y, key).value) && StringKeys(Lookup(y, key).value)
    ensures GetYamlValue(Convert(y), key) == if Lookup(y, key).Some? then Convert(Lookup(y, key).value) else Nil
    ensures GetYamlValue(Convert(y), key) == Nil <==> Lookup(y, key) in {None, Some(Nil)}
    decreases |key|
  {
    if y.AnyMap? && Text(key[0]) in y.entries {
      assert key[0] in Keys(y.entries);
      assert Convert(y).fields[key[0]] == Convert(y.entries[Text(key[0])]);
      if |key| > 1 {
        ConvertPreservesLookup(y.entries[Text(key[0])], key[1..]);
      }
    }
  }

  /* ---- references to secrets ---- */

  const SECRET := "secret:"

  /** The index of the first c in s at or behind k, or |s|. */
  function IndexFrom(s: string, k: nat, c: char): (e: nat)
    requires k <= |s|
    ensures k <= e <= |s|
    ensures e < |s| ==> s[e] == c
    ensures forall i | k <= i < e :: s[i] != c
    decreases |s| - k
  {
    if k == |s| || s[k] == c then k else IndexFrom(s, k + 1, c)
  }

  /** The match of secret:(.[^/]*)/(.*) at this place of s: a character but a newline, others but a slash, and a line. */
  function MatchAt(s: string, k: nat): Option<(string, string)> {
    if k + 7 >= |s| || s[k..k + 7] != SECRET || s[k + 7] == '\n' then None
    else
      var e := IndexFrom(s, k + 8, '/');
      if e == |s| then None else Some((s[k + 7..e], s[e + 1..IndexFrom(s, e + 1, '\n')]))
  }

  /** The leftmost match at or behind k. */
  function FindFrom(s: string, k: nat): (r: Option<(string, string)>)
    ensures r.Some? ==> r.value.0 != "" && r.value.0[0] != '\n' && '/' !in r.value.0[1..] && '\n' !in r.value.1
    decreases |s| - k
  {
    if k >= |s| then None
    else if MatchAt(s, k).Some? then MatchAt(s, k)
    else FindFrom(s, k + 1)
  }

  type Secrets = map<string, map<string, string>>

  /** A string which refers to a secret is replaced by the secret's value, and by Nil when it cannot be found. */
  function ResolveEntry(entry: Yaml, secrets: Secrets): Yaml {
    if !entry.Str? || !(SECRET <= entry.text) then entry
    else
      var found := FindFrom(entry.text, 0);
      if found.Some? && found.value.0 in secrets && found.value.1 in secrets[found.value.0]
      then Str(secrets[found.value.0][found.value.1]) else Nil
  }

  /** A reference is taken apart as it was put together exactly for these names and keys. */
  lemma SecretRoundTrip(name: string, key: string)
    ensures FindFrom(SECRET + name + "/" + key, 0) == Some((name, key))
            <==> name != "" && name[0] != '\n' && '/' !in name[1..] && '\n' !in key
  {
    var s := SECRET + name + "/" + key;
    if name != "" && name[0] != '\n' && '/' !in name[1..] && '\n' !in key {
      assert s[..7] == SECRET && s[7] == name[0];
      forall i | 8 <= i < 7 + |name| ensures s[i] != '/' {
        assert s[i] == name[1..][i - 8];
      }
      assert s[7 + |name|] == '/' && IndexFrom(s, 8, '/') == 7 + |name|;
      forall i | 8 + |name| <= i < |s| ensures s[i] != '\n' {
        assert s[i] == key[i - 8 - |name|];
      }
      assert IndexFrom(s, 8 + |name|, '\n') == |s|;
      assert s[0..7] == SECRET && s[7..7 + |name|] == name && s[8 + |name|..|s|] == key;
      assert MatchAt(s, 0) == Some((name, key));
    }
  }

  /** A well-formed reference gives the secret's value, or nothing if that is missing; whatever is no reference stays. */
  lemma ReferencesResolve(name: string, key: string, secrets: Secrets)
    requires name != "" && name[0] != '\n' && '/' !in name[1..] && '\n' !in key
    ensures ResolveEntry(Str("secret:" + name + "/" + key), secrets)
            == if name in secrets && key in secrets[name] then Str(secrets[name][key]) else Nil
    ensures forall y: Yaml | !y.Str? || !("secret:" <= y.text) :: ResolveEntry(y, secrets) == y
  {
    var s := SECRET + name + "/" + key;
    SecretRoundTrip(name, key);
    assert SECRET <= s;
    hide FindFrom;
  }
}
