/** JSON texts (RFC 8259): what a text denotes, and that it denotes one thing only. */
module Jsons {
  import opened Names
  import opened Documents

  /** A scalar keeps its word and a string its lexeme between the quotes. */
  datatype Json = Scalar(word: string) | Str(lexeme: string) | Arr(items: seq<Json>) | Obj(members: seq<Member>)

  datatype Member = Member(name: string, value: Json)

  datatype Token = LBrace | RBrace | LBracket | RBracket | Comma | Colon | Text(lexeme: string) | Word(word: string)

  /* ---- tokens (sections 2 and 7) ---- */

  predicate IsSpace(c: char) {
    c == ' ' || c == '\t' || c == '\n' || c == '\r'
  }

  function Structural(c: char): Option<Token> {
    match c
    case '{' => Some(LBrace)
    case '}' => Some(RBrace)
    case '[' => Some(LBracket)
    case ']' => Some(RBracket)
    case ',' => Some(Comma)
    case ':' => Some(Colon)
    case _ => None
  }

  /** The characters of numbers and of true, false and null. */
  predicate IsWordChar(c: char) {
    '0' <= c <= '9' || 'a' <= c <= 'z' || c == 'E' || c == '+' || c == '-' || c == '.'
  }

  predicate IsHex(c: char) {
    '0' <= c <= '9' || 'a' <= c <= 'f' || 'A' <= c <= 'F'
  }

  /** The index of the quote which closes the string whose body continues at k. */
  function StringEnd(s: string, k: nat): (e: Option<nat>)
    ensures e.Some? ==> k <= e.value < |s| && s[e.value] == '"'
    decreases |s| - k
  {
    if k >= |s| then None
    else if s[k] == '"' then Some(k)
    else if s[k] == '\\' then
      if k + 1 < |s| && s[k + 1] in "\"\\/bfnrt" then StringEnd(s, k + 2)
      else if k + 5 < |s| && s[k + 1] == 'u' && (forall i | k + 2 <= i < k + 6 :: IsHex(s[i])) then StringEnd(s, k + 6)
      else None
    else if s[k] < ' ' then None
    else StringEnd(s, k + 1)
  }

  function WordEnd(s: string, k: nat): (e: nat)
    requires k <= |s|
    ensures k <= e <= |s|
    ensures k < |s| && IsWordChar(s[k]) ==> k < e
    ensures e < |s| ==> !IsWordChar(s[e])
    ensures forall i | k <= i < e :: IsWordChar(s[i])
    decreases |s| - k
  {
    if k < |s| && IsWordChar(s[k]) then WordEnd(s, k + 1) else k
  }

  function Then(first: seq<Token>, rest: Option<seq<Token>>): Option<seq<Token>> {
    if rest.Some? then Some(first + rest.value) else None
  }

  function Lex(s: string): Option<seq<Token>>
    decreases |s|
  {
    if s == "" then Some([])
    else if IsSpace(s[0]) then Lex(s[1..])
    else if Structural(s[0]).Some? then Then([Structural(s[0]).value], Lex(s[1..]))
    else if s[0] == '"' then
      var e := StringEnd(s, 1);
      if e.Some? then Then([Text(s[1..e.value])], Lex(s[e.value + 1..])) else None
    else if IsWordChar(s[0]) then Then([Word(s[..WordEnd(s, 0)])], Lex(s[WordEnd(s, 0)..]))
    else None
  }

  /* ---- values (sections 3 to 5) ---- */

  function Toks(j: Json): seq<Token> {
    match j
    case Scalar(w) => [Word(w)]
    case Str(t) => [Text(t)]
    case Arr(items) => [LBracket] + ItemToks(items) + [RBracket]
    case Obj(members) => [LBrace] + MemberToks(members) + [RBrace]
  }

  function ItemToks(items: seq<Json>): seq<Token> {
    if items == [] then []
    else if |items| == 1 then Toks(items[0])
    else Toks(items[0]) + [Comma] + ItemToks(items[1..])
  }

  function MemberToks(members: seq<Member>): seq<Token> {
    if members == [] then []
    else
      var first := [Text(members[0].name), Colon] + Toks(members[0].value);
      if |members| == 1 then first else first + [Comma] + MemberToks(members[1..])
  }

  /** The text is a JSON text for j. */
  predicate Denotes(text: string, j: Json) {
    Lex(text) == Some(Toks(j))
  }

  lemma {:induction false} ToksAreDistinct(j: Json, k: Json, r: seq<Token>, t: seq<Token>)
    requires Toks(j) + r == Toks(k) + t
    ensures j == k && r == t
    decreases j
  {
    FirstTok(j, r);
    FirstTok(k, t);
    if j.Arr? {
      ItemToksAreDistinct(j.items, k.items, r, t);
    } else if j.Obj? {
      MemberToksAreDistinct(j.members, k.members, r, t);
    }
  }

  /** The first token tells the kind of a value, and what follows its contents. */
  lemma FirstTok(j: Json, r: seq<Token>)
    ensures var ts := Toks(j) + r;
      && ts != []
      && match j
         case Scalar(_) => ts[0] == Toks(j)[0] && Toks(j) == [ts[0]] && ts[1..] == r
         case Str(_) => ts[0] == Toks(j)[0] && Toks(j) == [ts[0]] && ts[1..] == r
         case Arr(items) => ts[0] == LBracket && ts[1..] == ItemToks(items) + ([RBracket] + r)
         case Obj(members) => ts[0] == LBrace && ts[1..] == MemberToks(members) + ([RBrace] + r)
  {
  }

  /** What follows the first item of an array, up to r behind the array. */
  function ItemRest(x: seq<Json>, r: seq<Token>): seq<Token>
    requires x != []
  {
    if |x| == 1 then [RBracket] + r else [Comma] + (ItemToks(x[1..]) + ([RBracket] + r))
  }

  lemma ItemShape(x: seq<Json>, r: seq<Token>)
    requires x != []
    ensures ItemToks(x) + ([RBracket] + r) == Toks(x[0]) + ItemRest(x, r)
  {
  }

  lemma ItemStart(x: seq<Json>, r: seq<Token>)
    ensures x == [] ==> ItemToks(x) + ([RBracket] + r) == [RBracket] + r
    ensures x == [] <==> (ItemToks(x) + ([RBracket] + r))[0] == RBracket
  {
    if x != [] {
      ItemShape(x, r);
      var head, rest := Toks(x[0]), ItemRest(x, r);
      assert head[0] != RBracket;
      hide *;
      assert (head + rest)[0] == head[0];
    }
  }

  lemma SameSeq<T>(x: seq<T>, y: seq<T>)
    requires x != [] && y != [] && x[0] == y[0] && x[1..] == y[1..]
    ensures x == y
  {
    assert x == [x[0]] + x[1..] && y == [y[0]] + y[1..];
  }

  lemma ItemRestShape(x: seq<Json>, r: seq<Token>)
    requires x != []
    ensures |x| == 1 <==> ItemRest(x, r)[0] == RBracket
    ensures ItemRest(x, r)[1..] == if |x| == 1 then r else ItemToks(x[1..]) + ([RBracket] + r)
  {
  }

  lemma {:induction false} ItemToksAreDistinct(x: seq<Json>, y: seq<Json>, r: seq<Token>, t: seq<Token>)
    requires ItemToks(x) + ([RBracket] + r) == ItemToks(y) + ([RBracket] + t)
    ensures x == y && r == t
    decreases x
  {
    ItemStart(x, r);
    ItemStart(y, t);
    if x == [] {
      SameTail([RBracket], r, [RBracket], t);
    } else {
      ItemShape(x, r);
      ItemShape(y, t);
      hide Toks, ItemToks, ItemRest;
      ToksAreDistinct(x[0], y[0], ItemRest(x, r), ItemRest(y, t));
      ItemRestShape(x, r);
      ItemRestShape(y, t);
      if |x| > 1 {
        ItemToksAreDistinct(x[1..], y[1..], r, t);
      }
      SameSeq(x, y);
    }
  }

  /** What follows the first member of an object, up to r behind the object. */
  function MemberRest(x: seq<Member>, r: seq<Token>): seq<Token>
    requires x != []
  {
    if |x| == 1 then [RBrace] + r else [Comma] + (MemberToks(x[1..]) + ([RBrace] + r))
  }

  lemma MemberShape(x: seq<Member>, r: seq<Token>)
    requires x != []
    ensures MemberToks(x) + ([RBrace] + r) == [Text(x[0].name), Colon] + (Toks(x[0].value) + MemberRest(x, r))
  {
  }

  lemma MemberStart(x: seq<Member>, r: seq<Token>)
    ensures x == [] ==> MemberToks(x) + ([RBrace] + r) == [RBrace] + r
    ensures x == [] <==> (MemberToks(x) + ([RBrace] + r))[0] == RBrace
  {
    if x != [] {
      MemberShape(x, r);
      hide *;
    }
  }

  lemma SameTail<T>(a: seq<T>, b: seq<T>, c: seq<T>, d: seq<T>)
    requires a + b == c + d && |a| == |c|
    ensures a == c && b == d
  {
    assert a == (a + b)[..|a|] && c == (c + d)[..|c|];
    assert b == (a + b)[|a|..] && d == (c + d)[|c|..];
  }

  lemma MemberRestShape(x: seq<Member>, r: seq<Token>)
    requires x != []
    ensures |x| == 1 <==> MemberRest(x, r)[0] == RBrace
    ensures MemberRest(x, r)[1..] == if |x| == 1 then r else MemberToks(x[1..]) + ([RBrace] + r)
  {
  }

  lemma FirstMembers(x: seq<Member>, y: seq<Member>, r: seq<Token>, t: seq<Token>)
    requires x != [] && y != []
    requires MemberToks(x) + ([RBrace] + r) == MemberToks(y) + ([RBrace] + t)
    ensures x[0].name == y[0].name
    ensures Toks(x[0].value) + MemberRest(x, r) == Toks(y[0].value) + MemberRest(y, t)
  {
    MemberShape(x, r);
    MemberShape(y, t);
    hide *;
    var a, b := [Text(x[0].name), Colon], [Text(y[0].name), Colon];
    SameTail(a, Toks(x[0].value) + MemberRest(x, r), b, Toks(y[0].value) + MemberRest(y, t));
    assert a[0] == b[0];
  }

  lemma {:induction false} MemberToksAreDistinct(x: seq<Member>, y: seq<Member>, r: seq<Token>, t: seq<Token>)
    requires MemberToks(x) + ([RBrace] + r) == MemberToks(y) + ([RBrace] + t)
    ensures x == y && r == t
    decreases x
  {
    MemberStart(x, r);
    MemberStart(y, t);
    if x == [] {
      SameTail([RBrace], r, [RBrace], t);
    } else {
      FirstMembers(x, y, r, t);
      hide Toks, MemberToks, MemberRest;
      ToksAreDistinct(x[0].value, y[0].value, MemberRest(x, r), MemberRest(y, t));
      MemberRestShape(x, r);
      MemberRestShape(y, t);
      if |x| > 1 {
        MemberToksAreDistinct(x[1..], y[1..], r, t);
      }
      assert x[0] == y[0];
      SameSeq(x, y);
    }
  }

  /** A text denotes at most one value. */
  lemma DenotesOne(text: string, j: Json, k: Json)
    requires Denotes(text, j) && Denotes(text, k)
    ensures j == k
  {
    assert Toks(j) + [] == Toks(k) + [];
    ToksAreDistinct(j, k, [], []);
  }

  /* ---- texts side by side ---- */

  lemma {:induction false} StringEndLocal(s: string, k: nat, n: nat)
    requires StringEnd(s, k).Some? && StringEnd(s, k).value < n <= |s|
    ensures StringEnd(s[..n], k) == StringEnd(s, k)
    decreases |s| - k
  {
    if s[k] == '"' {
    } else if s[k] == '\\' {
      if k + 1 < |s| && s[k + 1] in "\"\\/bfnrt" {
        StringEndLocal(s, k + 2, n);
      } else {
        StringEndLocal(s, k + 6, n);
      }
    } else {
      StringEndLocal(s, k + 1, n);
    }
  }

  lemma {:induction false} WordEndLocal(s: string, k: nat, n: nat)
    requires k <= |s| && WordEnd(s, k) <= n <= |s|
    ensures WordEnd(s[..n], k) == WordEnd(s, k)
    decreases |s| - k
  {
    if k < |s| && IsWordChar(s[k]) {
      WordEndLocal(s, k + 1, n);
    }
  }

  lemma ThenAppend(first: seq<Token>, a: seq<Token>, b: Option<seq<Token>>)
    ensures Then(first, Then(a, b)) == Then(first + a, b)
    ensures Then([], b) == b
  {
    if b.Some? {
      assert first + (a + b.value) == first + a + b.value;
      assert [] + b.value == b.value;
    }
  }

  /** The first token of a non-empty text, and where the text goes on: nothing for a space. */
  function FirstToken(s: string): (r: Option<(seq<Token>, nat)>)
    requires s != ""
    ensures r.Some? ==> 0 < r.value.1 <= |s| && |r.value.0| <= 1
    ensures Lex(s) == if r.Some? then Then(r.value.0, Lex(s[r.value.1..])) else None
  {
    if IsSpace(s[0]) then
      ThenAppend([], [], Lex(s[1..]));
      Some(([], 1))
    else if Structural(s[0]).Some? then Some(([Structural(s[0]).value], 1))
    else if s[0] == '"' then
      var e := StringEnd(s, 1);
      if e.Some? then Some(([Text(s[1..e.value])], e.value + 1)) else None
    else if IsWordChar(s[0]) then Some(([Word(s[..WordEnd(s, 0)])], WordEnd(s, 0)))
    else None
  }

  lemma FirstTokenAppend(a: string, b: string)
    requires a != "" && FirstToken(a).Some?
    requires b == "" || !IsWordChar(a[|a| - 1]) || !IsWordChar(b[0])
    ensures FirstToken(a + b) == FirstToken(a)
  {
    if IsSpace(a[0]) || Structural(a[0]).Some? {
    } else if a[0] == '"' {
      StringEndAppend(a, b, 1);
      var e := StringEnd(a, 1).value;
      assert (a + b)[1..e] == a[1..e];
    } else {
      WordEndAppend(a, b, 0);
      assert (a + b)[..WordEnd(a, 0)] == a[..WordEnd(a, 0)];
    }
  }

  /** Unless a word would run on, two texts side by side have the tokens of the one and then of the other. */
  lemma {:induction false} LexAppend(a: string, b: string)
    requires Lex(a).Some?
    requires a == "" || b == "" || !IsWordChar(a[|a| - 1]) || !IsWordChar(b[0])
    ensures Lex(a + b) == Then(Lex(a).value, Lex(b))
    decreases |a|
  {
    if a == "" {
      assert a + b == b;
      ThenAppend([], [], Lex(b));
    } else {
      var (first, n) := FirstToken(a).value;
      FirstTokenAppend(a, b);
      hide Lex, FirstToken;
      assert (a + b)[n..] == a[n..] + b;
      LexAppend(a[n..], b);
      ThenAppend(first, Lex(a[n..]).value, Lex(b));
    }
  }

  lemma {:induction false} StringEndAppend(a: string, b: string, k: nat)
    requires StringEnd(a, k).Some?
    ensures StringEnd(a + b, k) == StringEnd(a, k)
    decreases |a| - k
  {
    if a[k] == '"' {
    } else if a[k] == '\\' {
      if k + 1 < |a| && a[k + 1] in "\"\\/bfnrt" {
        StringEndAppend(a, b, k + 2);
      } else {
        StringEndAppend(a, b, k + 6);
      }
    } else {
      StringEndAppend(a, b, k + 1);
    }
  }

  lemma {:induction false} WordEndAppend(a: string, b: string, k: nat)
    requires k < |a| && IsWordChar(a[k])
    requires b == "" || !IsWordChar(a[|a| - 1]) || !IsWordChar(b[0])
    ensures WordEnd(a + b, k) == WordEnd(a, k)
    decreases |a| - k
  {
    if k + 1 < |a| && IsWordChar(a[k + 1]) {
      WordEndAppend(a, b, k + 1);
    }
  }

  lemma {:induction false} LexNothing(s: string)
    requires Lex(s) == Some([])
    ensures '}' !in s
    decreases |s|
  {
    if s != "" {
      var (first, n) := FirstToken(s).value;
      assert first == [] && IsSpace(s[0]);
      LexNothing(s[1..]);
      assert s == [s[0]] + s[1..];
    }
  }

  lemma LastIndexSuffix(s: string, n: nat, c: char)
    requires n <= |s| && LastIndex(s[n..], c) >= 0
    ensures LastIndex(s, c) == n + LastIndex(s[n..], c)
  {
    var k := LastIndex(s[n..], c);
    assert s[n + k] == s[n..][k] == c;
    assert forall i | n + k < i < |s| :: s[i] == s[n..][i - n];
  }

  lemma FirstTokenLocal(s: string, k: nat)
    requires s != "" && FirstToken(s).Some? && FirstToken(s).value.1 <= k <= |s| && k > 0
    ensures FirstToken(s[..k]) == FirstToken(s)
  {
    if IsSpace(s[0]) || Structural(s[0]).Some? {
    } else if s[0] == '"' {
      StringEndLocal(s, 1, k);
      var e := StringEnd(s, 1).value;
      assert s[..k][1..e] == s[1..e];
    } else {
      WordEndLocal(s, 0, k);
      assert s[..k][..WordEnd(s, 0)] == s[..WordEnd(s, 0)];
    }
  }

  lemma BraceIsLast(s: string)
    requires s != "" && FirstToken(s).Some? && FirstToken(s).value.0 == [RBrace]
    ensures s[0] == '}' && FirstToken(s).value.1 == 1
  {
  }

  /** The last closing brace of a text which ends with one is that token, and the text before it has the other tokens. */
  lemma {:induction false} CutAtLastBrace(s: string, ts: seq<Token>)
    requires Lex(s) == Some(ts + [RBrace])
    ensures LastIndex(s, '}') >= 0
    ensures Lex(s[..LastIndex(s, '}')]) == Some(ts)
    decreases |s|
  {
    assert s != "" && Lex("") == Some([]);
    hide Lex, FirstToken, LastIndex;
    var (first, n) := FirstToken(s).value;
    var after := Lex(s[n..]).value;
    assert first + after == ts + [RBrace];
    if ts == [] && first != [] {
      assert [] + [RBrace] == [RBrace];
      OnlyBrace(s);
      assert s[..0] == "";
    } else {
      var rest := ts[|first|..];
      HeadOff(first, after, ts);
      CutAtLastBrace(s[n..], rest);
      LastIndexSuffix(s, n, '}');
      var k := LastIndex(s, '}');
      FirstTokenLocal(s, k);
      assert s[..k][n..] == s[n..][..k - n];
    }
  }

  lemma HeadOff(first: seq<Token>, after: seq<Token>, ts: seq<Token>)
    requires first + after == ts + [RBrace] && |first| <= |ts|
    ensures after == ts[|first|..] + [RBrace] && first + ts[|first|..] == ts
  {
    assert (first + after)[|first|..] == after && (ts + [RBrace])[|first|..] == ts[|first|..] + [RBrace];
    assert first == (first + after)[..|first|] == ts[..|first|];
  }

  /** The token is the closing brace, and what follows it has no other. */
  lemma OnlyBrace(s: string)
    requires s != "" && FirstToken(s).Some? && FirstToken(s).value.0 != [] && Lex(s) == Some([RBrace])
    ensures LastIndex(s, '}') == 0 && Lex("") == Some([])
  {
    var (first, n) := FirstToken(s).value;
    var after := Lex(s[n..]).value;
    assert first + after == [RBrace];
    assert |first + after| == |first| + |after| == 1;
    assert first[0] == (first + after)[0] == RBrace;
    assert first == [RBrace] && after == [];
    BraceIsLast(s);
    LexNothing(s[1..]);
    assert forall i | 0 < i < |s| :: s[i] == s[1..][i - 1];
  }
}
