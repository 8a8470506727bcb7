/**
 Prompt rendering: find the double-mustache names once, then replace them one name
 at a time, in whatever order the set of names is walked.
 */
module PromptTemplate {
  import opened Wrappers

  // -------------------------------------------------------------- str.replace

  // Every non-overlapping occurrence from the left; what was put in is not searched.
  function Replace(text: string, find: string, put: string): string
    requires find != []
  {
    if find <= text then put + Replace(text[|find|..], find, put)
    else if text == [] then []
    else [text[0]] + Replace(text[1..], find, put)
  }

  // ------------------------------------------------------ the placeholder pattern

  predicate IsSpace(c: char) {
    || c in " \t\n\r\U{b}\U{c}\U{1c}\U{1d}\U{1e}\U{1f}\U{85}\U{a0}\U{1680}\U{2028}\U{2029}\U{202f}\U{205f}\U{3000}"
    || '\U{2000}' <= c <= '\U{200a}'
  }

  predicate IsNameStart(c: char) {
    'a' <= c <= 'z' || 'A' <= c <= 'Z' || c == '_'
  }

  predicate IsNameChar(c: char) {
    IsNameStart(c) || '0' <= c <= '9'
  }

  predicate IsName(s: string) {
    s != [] && IsNameStart(s[0]) && forall c | c in s :: IsNameChar(c)
  }

  // How many leading characters satisfy the predicate.
  function Run(p: char -> bool, s: string): (n: nat)
    ensures n <= |s| && (n < |s| ==> !p(s[n])) && forall i | 0 <= i < n :: p(s[i])
  {
    if s != [] && p(s[0]) then 1 + Run(p, s[1..]) else 0
  }

  datatype Match = Match(name: string, rest: string)

  function AfterSpaces(s: string): (r: string)
    ensures |r| <= |s|
  {
    s[Run(IsSpace, s)..]
  }

  // A match at the head. The classes of the pattern are disjoint, so the greedy
  // reading is the only one.
  function MatchAt(text: string): (m: Option<Match>)
    ensures m.Some? ==> |m.value.rest| < |text|
  {
    if !("{{" <= text) then None
    else
      var named := AfterSpaces(text[2..]);
      var n := Run(IsNameChar, named);
      var close := AfterSpaces(named[n..]);
      if n > 0 && IsNameStart(named[0]) && "}}" <= close then Some(Match(named[..n], close[2..])) else None
  }

  // set(findall(...)).
  function Placeholders(text: string): set<string>
    decreases |text|
  {
    if text == [] then {}
    else
      var m := MatchAt(text);
      if m.Some? then {m.value.name} + Placeholders(m.value.rest) else Placeholders(text[1..])
  }

  // ------------------------------------------------------------------- rendering

  function Token(name: string): string {
    "{{" + name + "}}"
  }

  // The loop over the names in one given order. A missing variable is an error.
  function RenderIn(text: string, order: seq<string>, variables: map<string, string>): Result<string, string>
    decreases |order|
  {
    if order == [] then Ok(text)
    else if order[0] !in variables then Err(order[0])
    else RenderIn(Replace(text, Token(order[0]), variables[order[0]]), order[1..], variables)
  }

  ghost predicate IsOrderOf(order: seq<string>, names: set<string>) {
    (forall n :: n in order <==> n in names) && forall i, j | 0 <= i < j < |order| :: order[i] != order[j]
  }

  lemma {:induction false} RenderExtends(text: string, done: seq<string>, next: string, variables: map<string, string>)
    requires RenderIn(text, done, variables).Ok?
    ensures RenderIn(text, done + [next], variables)
        == RenderIn(RenderIn(text, done, variables).value, [next], variables)
    decreases |done|
  {
    if done == [] {
      assert done + [next] == [next];
    } else {
      assert (done + [next])[1..] == done[1..] + [next];
      RenderExtends(Replace(text, Token(done[0]), variables[done[0]]), done[1..], next, variables);
    }
  }

  lemma {:induction false} MissingStops(text: string, done: seq<string>, rest: seq<string>,
      variables: map<string, string>)
    requires RenderIn(text, done, variables).Err?
    ensures RenderIn(text, done + rest, variables) == RenderIn(text, done, variables)
    decreases |done|
  {
    assert (done + rest)[1..] == done[1..] + rest;
    if done[0] in variables {
      MissingStops(Replace(text, Token(done[0]), variables[done[0]]), done[1..], rest, variables);
    }
  }

  // Some order of a set of names.
  lemma {:induction false} SomeOrder(names: set<string>) returns (order: seq<string>)
    ensures IsOrderOf(order, names)
    decreases |names|
  {
    if names == {} {
      order := [];
    } else {
      var n :| n in names;
      var rest := SomeOrder(names - {n});
      order := [n] + rest;
    }
  }

  lemma OrdersJoin(a: seq<string>, b: seq<string>, x: set<string>, y: set<string>)
    requires IsOrderOf(a, x) && IsOrderOf(b, y) && x !! y
    ensures IsOrderOf(a + b, x + y)
  {
    forall i, j | 0 <= i < j < |a + b| ensures (a + b)[i] != (a + b)[j] {
      if i < |a| <= j { assert a[i] in x && b[j - |a|] in b && b[j - |a|] in y; }
    }
  }

  method RenderPrompt(content: string, variables: map<string, string>)
      returns (r: Result<string, string>, ghost order: seq<string>)
    ensures IsOrderOf(order, Placeholders(content))
    ensures r == RenderIn(content, order, variables)
    ensures r.Err? <==> exists n | n in Placeholders(content) :: n !in variables
    ensures r.Err? ==> r.error in Placeholders(content) && r.error !in variables
  {
    var rendered, rest := content, Placeholders(content);
    order := [];
    while rest != {}
      invariant rest <= Placeholders(content)
      invariant IsOrderOf(order, Placeholders(content) - rest)
      invariant RenderIn(content, order, variables) == Ok(rendered)
      invariant forall n | n in order :: n in variables
      decreases rest
    {
      var placeholder :| placeholder in rest;
      RenderExtends(content, order, placeholder, variables);
      rest := rest - {placeholder};
      order := order + [placeholder];
      if placeholder !in variables {
        ghost var after := SomeOrder(rest);
        MissingStops(content, order, after, variables);
        OrdersJoin(order, after, Placeholders(content) - rest, rest);
        order := order + after;
        return Err(placeholder), order;
      }
      rendered := Replace(rendered, Token(placeholder), variables[placeholder]);
    }
    r := Ok(rendered);
  }

  // ---------------------------------------------------- templates with structure

  // Text, a token, and a placeholder with space inside its braces.
  datatype Piece = Lit(text: string) | Tok(name: string) | Spaced(before: string, name: string, after: string)

  function Text(pieces: seq<Piece>): string {
    if pieces == [] then ""
    else PieceText(pieces[0]) + Text(pieces[1..])
  }

  function PieceText(p: Piece): string {
    match p
    case Lit(t) => t
    case Tok(n) => Token(n)
    case Spaced(before, n, after) => "{{" + before + n + after + "}}"
  }

  // No two braces open in a row and none is left open at the end. Text without an
  // opening brace is a case of this, and so is JSON that ends in a closing one.
  ghost predicate Lone(s: string) {
    && (forall i | 0 <= i < |s| - 1 :: s[i] == '{' ==> s[i + 1] != '{')
    && (s != [] ==> s[|s| - 1] != '{')
  }

  predicate Spaces(s: string) {
    forall i | 0 <= i < |s| :: IsSpace(s[i])
  }

  ghost predicate Fits(p: Piece) {
    match p
    case Lit(t) => Lone(t)
    case Tok(n) => IsName(n)
    case Spaced(before, n, after) => IsName(n) && Spaces(before) && Spaces(after) && before + after != []
  }

  ghost predicate WellFormed(pieces: seq<Piece>) {
    forall p | p in pieces :: Fits(p)
  }

  function Names(pieces: seq<Piece>): set<string> {
    set p | p in pieces && !p.Lit? :: p.name
  }

  // Every name replaced at once, where a replacement looks: in the tokens.
  function Substitute(pieces: seq<Piece>, variables: map<string, string>): seq<Piece> {
    seq(|pieces|, i requires 0 <= i < |pieces| =>
      if pieces[i].Tok? && pieces[i].name in variables then Lit(variables[pieces[i].name]) else pieces[i])
  }

  // --------------------------------------------------------- searching the pieces

  lemma NoMatchInLone(l: string, rest: string, find: string)
    requires l != [] && Lone(l) && "{{" <= find
    ensures !(find <= l + rest)
  {
    var s := l + rest;
    assert find[0] == '{' && find[1] == '{';
    assert s[0] == l[0] && (|l| > 1 ==> s[1] == l[1]);
  }

  lemma SkipOne(l: string, rest: string, find: string, put: string)
    requires l != [] && find != [] && !(find <= l + rest)
    requires Replace(l[1..] + rest, find, put) == l[1..] + Replace(rest, find, put)
    ensures Replace(l + rest, find, put) == l + Replace(rest, find, put)
  {
    var more := Replace(rest, find, put);
    assert (l + rest)[1..] == l[1..] + rest;
    assert Replace(l + rest, find, put) == [l[0]] + (l[1..] + more) == l + more;
  }

  /** A search for something that opens with two braces passes over lone text. */
  lemma {:induction false} ReplacePastLone(l: string, rest: string, find: string, put: string)
    requires Lone(l) && "{{" <= find
    ensures Replace(l + rest, find, put) == l + Replace(rest, find, put)
    decreases |l|
  {
    if l == [] {
      assert l + rest == rest && l + Replace(rest, find, put) == Replace(rest, find, put);
    } else {
      NoMatchInLone(l, rest, find);
      assert Lone(l[1..]);
      hide Lone;
      ReplacePastLone(l[1..], rest, find, put);
      SkipOne(l, rest, find, put);
    }
  }

  lemma OneBraceIsLone(l: string)
    requires |l| > 1 && forall i | 0 < i < |l| :: l[i] != '{'
    ensures Lone(l)
  {
  }

  lemma TokenIsBraceAndLone(name: string)
    requires IsName(name)
    ensures Token(name) == "{" + ("{" + name + "}}") && Lone("{" + name + "}}")
  {
    var l := "{" + name + "}}";
    forall i | 0 < i < |l| ensures l[i] != '{' {
      if i <= |name| { assert l[i] == name[i - 1] && l[i] in name; }
    }
    OneBraceIsLone(l);
  }

  // One name's token is not a prefix of a text that starts with another's.
  lemma TokensDiffer(m: string, n: string, rest: string)
    requires IsName(m) && IsName(n) && Token(n) <= Token(m) + rest
    ensures m == n
  {
    var s := Token(m) + rest;
    forall k | 2 <= k < |m| + 2 ensures s[k] == m[k - 2] != '}' { assert m[k - 2] in m; }
    forall k | 2 <= k < |n| + 2 ensures s[k] == n[k - 2] != '}' { assert s[k] == Token(n)[k] && n[k - 2] in n; }
    assert s[|n| + 2] == Token(n)[|n| + 2] == '}' && s[|m| + 2] == '}';
    assert |m| == |n|;
    forall i | 0 <= i < |m| ensures m[i] == n[i] { assert s[i + 2] == m[i] && s[i + 2] == n[i]; }
  }

  lemma ReplaceAtToken(m: string, rest: string, n: string, put: string)
    requires IsName(m) && IsName(n)
    ensures Replace(Token(m) + rest, Token(n), put) == (if m == n then put else Token(m)) + Replace(rest, Token(n), put)
  {
    var s, l := Token(m) + rest, "{" + m + "}}";
    if m == n {
      assert s[|Token(n)|..] == rest;
    } else {
      TokenIsBraceAndLone(m);
      ReplacePastLone(l, rest, Token(n), put);
      assert s == "{" + (l + rest) && s[1..] == l + rest;
      assert !(Token(n) <= s) by { if Token(n) <= s { TokensDiffer(m, n, rest); } }
      assert Token(m) + Replace(rest, Token(n), put) == "{" + (l + Replace(rest, Token(n), put));
    }
  }

  lemma TokenReads(n: string, s: string)
    requires IsName(n) && Token(n) <= s
    ensures forall k | 2 <= k < |n| + 2 :: IsNameChar(s[k])
    ensures |n| > 0 && |s| > |n| + 2 && s[|n| + 2] == '}'
  {
    hide IsNameChar;
    forall k | 2 <= k < |n| + 2 ensures IsNameChar(s[k]) { assert s[k] == Token(n)[k] == n[k - 2] && n[k - 2] in n; }
    assert s[|n| + 2] == Token(n)[|n| + 2];
  }

  lemma BracesAreNeither()
    ensures !IsSpace('{') && !IsSpace('}') && !IsNameChar('{') && !IsNameChar('}')
    ensures forall c :: IsSpace(c) ==> !IsNameChar(c)
  {
  }

  // A placeholder with space inside is not any name's token.
  lemma SpacedIsNotToken(p: Piece, n: string, rest: string)
    requires p.Spaced? && Fits(p) && IsName(n)
    ensures !(Token(n) <= PieceText(p) + rest)
  {
    hide IsSpace, IsNameChar, IsNameStart;
    BracesAreNeither();
    var s, m := PieceText(p) + rest, p.name;
    if p.before != [] {
      assert s[2] == p.before[0];
    } else {
      forall k | 2 <= k < |m| + 2 ensures IsNameChar(s[k]) { assert s[k] == m[k - 2] && m[k - 2] in m; }
      assert s[|m| + 2] == p.after[0];
    }
    if Token(n) <= s { TokenReads(n, s); }
  }

  lemma SpacedIsLone(p: Piece)
    requires p.Spaced? && Fits(p)
    ensures Lone(PieceText(p)[1..]) && PieceText(p)[0] == '{'
  {
    hide IsSpace, IsNameChar, IsNameStart, Lone;
    BracesAreNeither();
    var l, inner := PieceText(p)[1..], p.before + p.name + p.after;
    assert l == "{" + inner + "}}";
    forall i | 0 < i < |l| ensures l[i] != '{' {
      if i <= |inner| {
        assert l[i] == inner[i - 1];
        assert l[i] in p.before || l[i] in p.name || l[i] in p.after;
      }
    }
    OneBraceIsLone(l);
  }

  lemma ReplaceAtSpaced(p: Piece, rest: string, n: string, put: string)
    requires p.Spaced? && Fits(p) && IsName(n)
    ensures Replace(PieceText(p) + rest, Token(n), put) == PieceText(p) + Replace(rest, Token(n), put)
  {
    SpacedIsNotToken(p, n, rest);
    SpacedIsLone(p);
    TokenOpens(n);
    hide Lone, IsName, Spaces, PieceText, Replace, Token;
    var t := PieceText(p);
    ReplacePastLone(t[1..], rest, Token(n), put);
    SkipOne(t, rest, Token(n), put);
  }

  lemma TokenOpens(n: string)
    ensures "{{" <= Token(n) && Token(n) != []
  {
  }

  /** Replacing one name in a template, whatever the value, fills exactly its tokens. */
  lemma {:induction false} ReplaceFillsOne(pieces: seq<Piece>, n: string, put: string)
    requires WellFormed(pieces) && IsName(n)
    ensures Replace(Text(pieces), Token(n), put) == Text(Substitute(pieces, map[n := put]))
    decreases |pieces|
  {
    if pieces != [] {
      var rest := pieces[1..];
      ReplaceFillsOne(rest, n, put);
      assert Substitute(pieces, map[n := put])[1..] == Substitute(rest, map[n := put]);
      assert Fits(pieces[0]);
      match pieces[0] {
        case Lit(t) => ReplacePastLone(t, Text(rest), Token(n), put);
        case Tok(m) => ReplaceAtToken(m, Text(rest), n, put);
        case Spaced(_, _, _) => ReplaceAtSpaced(pieces[0], Text(rest), n, put);
      }
    }
  }

  lemma {:induction false} SearchPastLone(l: string, rest: string)
    requires Lone(l)
    ensures Placeholders(l + rest) == Placeholders(rest)
    decreases |l|
  {
    if l == [] {
      assert l + rest == rest;
    } else {
      NoMatchInLone(l, rest, "{{");
      assert (l + rest)[1..] == l[1..] + rest;
      assert Lone(l[1..]);
      SearchPastLone(l[1..], rest);
    }
  }

  lemma SpacesSkipped(spaces: string, rest: string)
    requires Spaces(spaces) && (rest != [] ==> !IsSpace(rest[0]))
    ensures AfterSpaces(spaces + rest) == rest
  {
    hide IsSpace;
    var s, n := spaces + rest, Run(IsSpace, spaces + rest);
    forall k | 0 <= k < |spaces| ensures IsSpace(s[k]) { assert s[k] == spaces[k]; }
    assert rest != [] ==> s[|spaces|] == rest[0];
  }

  lemma NameRead(m: string, rest: string)
    requires IsName(m) && (rest != [] ==> !IsNameChar(rest[0]))
    ensures Run(IsNameChar, m + rest) == |m| && (m + rest)[..|m|] == m && (m + rest)[|m|..] == rest
  {
    hide IsNameChar;
    var s, n := m + rest, Run(IsNameChar, m + rest);
    forall k | 0 <= k < |m| ensures IsNameChar(s[k]) { assert s[k] == m[k] && m[k] in m; }
    assert rest != [] ==> s[|m|] == rest[0];
  }

  lemma AfterBraces(before: string, m: string, after: string, rest: string)
    ensures var text := "{{" + before + m + after + "}}" + rest;
            "{{" <= text && text[2..] == before + (m + (after + ("}}" + rest)))
  {
  }

  // A placeholder with optional spaces inside its braces is one match.
  lemma MatchSpaced(before: string, m: string, after: string, rest: string)
    requires IsName(m) && Spaces(before) && Spaces(after)
    ensures MatchAt("{{" + before + m + after + "}}" + rest) == Some(Match(m, rest))
  {
    hide Spaces, AfterSpaces, Run;
    AfterBraces(before, m, after, rest);
    var text := "{{" + before + m + after + "}}" + rest;
    var close := "}}" + rest;
    var tail := after + close;
    var named := m + tail;
    assert named[0] == m[0];
    assert tail[0] == (if after == [] then '}' else after[0]);
    SpaceStarts(after);
    SpacesSkipped(before, named);
    NameRead(m, tail);
    SpacesSkipped(after, close);
    assert close[2..] == rest;
  }

  lemma SpaceStarts(s: string)
    requires Spaces(s)
    ensures s != [] ==> IsSpace(s[0]) && !IsNameChar(s[0])
  {
  }

  lemma SearchAtToken(m: string, rest: string)
    requires IsName(m)
    ensures Placeholders(Token(m) + rest) == {m} + Placeholders(rest)
  {
    hide MatchAt, IsName;
    MatchSpaced("", m, "", rest);
    assert "{{" + "" + m + "" + "}}" + rest == Token(m) + rest;
  }

  lemma SearchAtSpaced(p: Piece, rest: string)
    requires p.Spaced? && Fits(p)
    ensures Placeholders(PieceText(p) + rest) == {p.name} + Placeholders(rest)
  {
    hide MatchAt, IsName, Spaces;
    MatchSpaced(p.before, p.name, p.after, rest);
  }

  /** The names found in a template are the names of its tokens, spaced or not. */
  lemma {:induction false} PlaceholdersAreNames(pieces: seq<Piece>)
    requires WellFormed(pieces)
    ensures Placeholders(Text(pieces)) == Names(pieces)
    decreases |pieces|
  {
    if pieces != [] {
      var rest := pieces[1..];
      NamesSplit(pieces);
      assert Fits(pieces[0]);
      hide Names, Placeholders, Lone, IsName, Spaces;
      PlaceholdersAreNames(rest);
      match pieces[0] {
        case Lit(t) => SearchPastLone(t, Text(rest));
        case Tok(m) => SearchAtToken(m, Text(rest));
        case Spaced(_, _, _) => SearchAtSpaced(pieces[0], Text(rest));
      }
    }
  }

  lemma NamesSplit(pieces: seq<Piece>)
    requires pieces != []
    ensures Names(pieces) == Names(pieces[1..]) + (if pieces[0].Lit? then {} else {pieces[0].name})
  {
    assert pieces == [pieces[0]] + pieces[1..];
  }

  // ------------------------------------------------ values that hold placeholders

  type Values = map<string, seq<Piece>>

  function Texts(values: Values): map<string, string> {
    map n | n in values :: Text(values[n])
  }

  function Fill(pieces: seq<Piece>, values: Values): seq<Piece> {
    if pieces == [] then []
    else FillPiece(pieces[0], values) + Fill(pieces[1..], values)
  }

  function FillPiece(p: Piece, values: Values): seq<Piece> {
    if p.Tok? && p.name in values then values[p.name] else [p]
  }

  // The loop on pieces.
  function FillIn(pieces: seq<Piece>, order: seq<string>, values: Values): seq<Piece>
    requires forall n | n in order :: n in values
    decreases |order|
  {
    if order == [] then pieces else FillIn(Fill(pieces, map[order[0] := values[order[0]]]), order[1..], values)
  }

  lemma {:induction false} TextJoins(a: seq<Piece>, b: seq<Piece>)
    ensures Text(a + b) == Text(a) + Text(b)
  {
    if a == [] {
      assert a + b == b;
    } else {
      assert (a + b)[1..] == a[1..] + b;
      TextJoins(a[1..], b);
    }
  }

  lemma {:induction false} FillJoins(a: seq<Piece>, b: seq<Piece>, values: Values)
    ensures Fill(a + b, values) == Fill(a, values) + Fill(b, values)
  {
    if a == [] {
      assert a + b == b;
    } else {
      assert (a + b)[1..] == a[1..] + b;
      FillJoins(a[1..], b, values);
    }
  }

  lemma {:induction false} FillIsSubstitute(pieces: seq<Piece>, values: Values)
    ensures Text(Fill(pieces, values)) == Text(Substitute(pieces, Texts(values)))
  {
    if pieces != [] {
      var put := Substitute(pieces, Texts(values));
      assert put[1..] == Substitute(pieces[1..], Texts(values));
      FillIsSubstitute(pieces[1..], values);
      TextJoins(FillPiece(pieces[0], values), Fill(pieces[1..], values));
      assert [pieces[0]][1..] == [];
    }
  }

  lemma {:induction false} FillMembers(pieces: seq<Piece>, n: string, v: seq<Piece>, p: Piece)
    ensures p in Fill(pieces, map[n := v]) <==> (p in pieces && p != Tok(n)) || (Tok(n) in pieces && p in v)
  {
    if pieces != [] {
      FillMembers(pieces[1..], n, v, p);
      assert pieces == [pieces[0]] + pieces[1..];
    }
  }

  lemma FillStaysWellFormed(pieces: seq<Piece>, n: string, v: seq<Piece>)
    requires WellFormed(pieces) && WellFormed(v)
    ensures WellFormed(Fill(pieces, map[n := v]))
  {
    hide Fits;
    forall p | p in Fill(pieces, map[n := v]) ensures Fits(p) { FillMembers(pieces, n, v, p); }
  }

  ghost predicate GoodValues(order: seq<string>, values: Values) {
    forall n | n in order :: IsName(n) && n in values && WellFormed(values[n])
  }

  lemma {:induction false} RenderIsFillIn(pieces: seq<Piece>, order: seq<string>, values: Values)
    requires WellFormed(pieces) && GoodValues(order, values)
    ensures RenderIn(Text(pieces), order, Texts(values)) == Ok(Text(FillIn(pieces, order, values)))
    ensures WellFormed(FillIn(pieces, order, values))
    decreases |order|
  {
    hide Replace, Text, Substitute, WellFormed, IsName;
    if order != [] {
      var n := order[0];
      var one := map[n := values[n]];
      assert n in order && forall m | m in order[1..] :: m in order;
      ReplaceFillsOne(pieces, n, Text(values[n]));
      assert Texts(one) == map[n := Text(values[n])];
      FillIsSubstitute(pieces, one);
      FillStaysWellFormed(pieces, n, values[n]);
      RenderIsFillIn(Fill(pieces, one), order[1..], values);
    }
  }

  // ------------------------------------------------------------- the main result

  function Restrict(values: Values, names: set<string>): Values
    requires names <= values.Keys
  {
    map n | n in names :: values[n]
  }

  // No token of the template has a value that brings in another found name's token.
  ghost predicate NothingBroughtIn(pieces: seq<Piece>, found: set<string>, values: Values)
    requires found <= values.Keys
  {
    forall n, m | n in found && m in found && Tok(n) in pieces && Tok(m) in values[n] :: m == n
  }

  lemma {:induction false} FillNothing(pieces: seq<Piece>, values: Values)
    requires forall n | n in values :: Tok(n) !in pieces
    ensures Fill(pieces, values) == pieces
  {
    if pieces != [] { FillNothing(pieces[1..], values); }
  }

  lemma {:induction false} OneThenTheRest(pieces: seq<Piece>, n: string, rest: set<string>, values: Values)
    requires n !in rest && rest + {n} <= values.Keys
    requires Tok(n) in pieces ==> forall m | m in rest :: Tok(m) !in values[n]
    ensures Fill(Fill(pieces, map[n := values[n]]), Restrict(values, rest))
        == Fill(pieces, Restrict(values, rest + {n}))
  {
    if pieces != [] {
      var one, more := map[n := values[n]], Restrict(values, rest);
      assert pieces == [pieces[0]] + pieces[1..];
      OneThenTheRest(pieces[1..], n, rest, values);
      FillJoins(FillPiece(pieces[0], one), Fill(pieces[1..], one), more);
      if pieces[0] == Tok(n) {
        FillNothing(values[n], more);
      } else {
        OnePiece(pieces[0], more);
      }
    }
  }

  lemma OnePiece(p: Piece, values: Values)
    ensures Fill([p], values) == FillPiece(p, values)
  {
    assert [p][1..] == [];
    assert FillPiece(p, values) + [] == FillPiece(p, values);
  }

  lemma {:induction false} EveryOrderFills(pieces: seq<Piece>, order: seq<string>, found: set<string>, values: Values)
    requires IsOrderOf(order, found) && found <= values.Keys && NothingBroughtIn(pieces, found, values)
    ensures FillIn(pieces, order, values) == Fill(pieces, Restrict(values, found))
    decreases |order|
  {
    if order == [] {
      FillNothing(pieces, Restrict(values, found));
    } else {
      var n := order[0];
      var once, rest := Fill(pieces, map[n := values[n]]), found - {n};
      OrderOfRest(order, found);
      forall k, m | k in rest && m in rest && Tok(k) in once && Tok(m) in values[k] ensures m == k {
        FillMembers(pieces, n, values[n], Tok(k));
      }
      EveryOrderFills(once, order[1..], rest, values);
      OneThenTheRest(pieces, n, rest, values);
      assert rest + {n} == found;
    }
  }

  lemma OrderOfRest(order: seq<string>, names: set<string>)
    requires order != [] && IsOrderOf(order, names)
    ensures IsOrderOf(order[1..], names - {order[0]})
  {
    forall n ensures n in order[1..] <==> n in names - {order[0]} {
      assert n in order <==> n == order[0] || n in order[1..];
    }
  }

  // What a caller supplies: a value for every name found, each a text in which two
  // braces open only a placeholder.
  ghost predicate Supplied(pieces: seq<Piece>, values: Values) {
    && WellFormed(pieces) && Placeholders(Text(pieces)) <= values.Keys
    && forall n | n in Placeholders(Text(pieces)) :: WellFormed(values[n])
  }

  lemma FoundAreGood(pieces: seq<Piece>, order: seq<string>, values: Values)
    requires Supplied(pieces, values) && IsOrderOf(order, Placeholders(Text(pieces)))
    ensures GoodValues(order, values)
  {
    PlaceholdersAreNames(pieces);
    forall n | n in order ensures IsName(n) {
      var p :| p in pieces && !p.Lit? && p.name == n;
      assert Fits(p);
    }
  }

  /** Whatever order the names are replaced in, the text is the simultaneous
      substitution, as long as no token's value brings in another found token. */
  lemma OrderDoesNotMatter(pieces: seq<Piece>, order: seq<string>, values: Values)
    requires Supplied(pieces, values) && IsOrderOf(order, Placeholders(Text(pieces)))
    requires NothingBroughtIn(pieces, Placeholders(Text(pieces)), values)
    ensures RenderIn(Text(pieces), order, Texts(values))
        == Ok(Text(Fill(pieces, Restrict(values, Placeholders(Text(pieces))))))
  {
    hide Placeholders, WellFormed, NothingBroughtIn;
    FoundAreGood(pieces, order, values);
    RenderIsFillIn(pieces, order, values);
    EveryOrderFills(pieces, order, Placeholders(Text(pieces)), values);
  }

  // ------------------------------------------------------------- where it stops

  lemma TokenIsLong(m: string)
    ensures PieceText(Tok(m)) == Token(m) && |Token(m)| == |m| + 4 && PieceText(Lit("")) == ""
  {
  }

  // A text tells whether it holds a token.
  lemma {:induction false} RemovingShortens(pieces: seq<Piece>, m: string)
    ensures |Text(Substitute(pieces, map[m := ""]))| <= |Text(pieces)|
    ensures Tok(m) in pieces ==> |Text(Substitute(pieces, map[m := ""]))| < |Text(pieces)|
    ensures Tok(m) !in pieces ==> Substitute(pieces, map[m := ""]) == pieces
  {
    var put := Substitute(pieces, map[m := ""]);
    if pieces != [] {
      assert put[1..] == Substitute(pieces[1..], map[m := ""]);
      RemovingShortens(pieces[1..], m);
      hide Substitute, Token;
      assert put[0] == if pieces[0] == Tok(m) then Lit("") else pieces[0];
      assert |Text(put)| == |PieceText(put[0])| + |Text(put[1..])|;
      assert |Text(pieces)| == |PieceText(pieces[0])| + |Text(pieces[1..])|;
      TokenIsLong(m);
      assert pieces == [pieces[0]] + pieces[1..] && put == [put[0]] + put[1..];
    }
  }

  lemma SameTextSameTokens(a: seq<Piece>, b: seq<Piece>, m: string)
    requires WellFormed(a) && WellFormed(b) && IsName(m) && Text(a) == Text(b)
    ensures Tok(m) in a <==> Tok(m) in b
  {
    hide WellFormed, Replace, Substitute;
    RemovingShortens(a, m);
    RemovingShortens(b, m);
    ReplaceFillsOne(a, m, "");
    ReplaceFillsOne(b, m, "");
  }

  lemma {:induction false} FillInLast(pieces: seq<Piece>, front: seq<string>, n: string, values: Values)
    requires n in values && forall k | k in front :: k in values
    ensures FillIn(pieces, front + [n], values) == Fill(FillIn(pieces, front, values), map[n := values[n]])
    decreases |front|
  {
    hide Fill;
    if front == [] {
      assert front + [n] == [n] && [n][1..] == [];
    } else {
      assert (front + [n])[1..] == front[1..] + [n];
      FillInLast(Fill(pieces, map[front[0] := values[front[0]]]), front[1..], n, values);
    }
  }

  lemma {:induction false} TokenWaits(pieces: seq<Piece>, order: seq<string>, n: string, values: Values)
    requires n !in order && Tok(n) in pieces && forall k | k in order :: k in values
    ensures Tok(n) in FillIn(pieces, order, values)
    decreases |order|
  {
    if order != [] {
      var k := order[0];
      FillMembers(pieces, k, values[k], Tok(n));
      TokenWaits(Fill(pieces, map[k := values[k]]), order[1..], n, values);
    }
  }

  /** A value that brings in another found token makes the text depend on the order:
      with n last the token of m is left in the text, with m last it is not. */
  lemma TokenInValueDependsOnOrder(pieces: seq<Piece>, values: Values, n: string, m: string, a: seq<string>,
      b: seq<string>)
    requires Supplied(pieces, values) && n in values && m in values && n != m
    requires Tok(n) in pieces && Tok(m) in values[n] && Tok(m) !in values[m]
    requires IsOrderOf(a + [n], Placeholders(Text(pieces))) && IsOrderOf(b + [m], Placeholders(Text(pieces)))
    ensures RenderIn(Text(pieces), a + [n], Texts(values)) != RenderIn(Text(pieces), b + [m], Texts(values))
  {
    hide Placeholders, WellFormed, IsName, Fill, RenderIn;
    assert n in a + [n] && m in b + [m];
    FoundAreGood(pieces, a + [n], values);
    FoundAreGood(pieces, b + [m], values);
    assert forall k | k in a :: k in a + [n];
    assert forall k | k in b :: k in b + [m];
    var x, y := FillIn(pieces, a, values), FillIn(pieces, b, values);
    LastIsNew(a, n, Placeholders(Text(pieces)));
    TokenWaits(pieces, a, n, values);
    FillInLast(pieces, a, n, values);
    FillInLast(pieces, b, m, values);
    FillMembers(x, n, values[n], Tok(m));
    FillMembers(y, m, values[m], Tok(m));
    RenderIsFillIn(pieces, a + [n], values);
    RenderIsFillIn(pieces, b + [m], values);
    if Text(FillIn(pieces, a + [n], values)) == Text(FillIn(pieces, b + [m], values)) {
      SameTextSameTokens(FillIn(pieces, a + [n], values), FillIn(pieces, b + [m], values), m);
    }
  }

  lemma LastIsNew(a: seq<string>, n: string, names: set<string>)
    requires IsOrderOf(a + [n], names)
    ensures n !in a
  {
    forall i | 0 <= i < |a| ensures a[i] != n { assert (a + [n])[i] != (a + [n])[|a|]; }
  }

  lemma OrderEndingIn(names: set<string>, n: string) returns (front: seq<string>)
    requires n in names
    ensures IsOrderOf(front + [n], names)
  {
    front := SomeOrder(names - {n});
    OrdersJoin(front, [n], names - {n}, {n});
    assert names - {n} + {n} == names;
  }

  ghost predicate AllOrdersAgree(text: string, variables: map<string, string>) {
    forall a, b | IsOrderOf(a, Placeholders(text)) && IsOrderOf(b, Placeholders(text)) ::
      RenderIn(text, a, variables) == RenderIn(text, b, variables)
  }

  /** Exactly when the walk over the set cannot be told from the text: when no
      token's value brings in another found token. A token brought in must not be in
      its own value; SelfTokensCanAgree shows what such values can do. */
  lemma OrdersAgreeIffNothingBroughtIn(pieces: seq<Piece>, values: Values)
    requires Supplied(pieces, values)
    requires var found := Placeholders(Text(pieces));
             forall n, m | n in found && m in found && n != m && Tok(n) in pieces && Tok(m) in values[n] ::
               Tok(m) !in values[m]
    ensures AllOrdersAgree(Text(pieces), Texts(values)) <==>
            NothingBroughtIn(pieces, Placeholders(Text(pieces)), values)
  {
    hide Placeholders, WellFormed, RenderIn, Fill;
    var found := Placeholders(Text(pieces));
    if NothingBroughtIn(pieces, found, values) {
      forall a, b | IsOrderOf(a, found) && IsOrderOf(b, found)
        ensures RenderIn(Text(pieces), a, Texts(values)) == RenderIn(Text(pieces), b, Texts(values))
      {
        OrderDoesNotMatter(pieces, a, values);
        OrderDoesNotMatter(pieces, b, values);
      }
    } else {
      var n, m :| n in found && m in found && Tok(n) in pieces && Tok(m) in values[n] && m != n;
      var a := OrderEndingIn(found, n);
      var b := OrderEndingIn(found, m);
      TokenInValueDependsOnOrder(pieces, values, n, m, a, b);
    }
  }

  lemma FillTwo(p: Piece, q: Piece, values: Values)
    ensures Fill([p, q], values) == FillPiece(p, values) + FillPiece(q, values)
  {
    FillJoins([p], [q], values);
    assert [p] + [q] == [p, q];
    OnePiece(p, values);
    OnePiece(q, values);
  }

  lemma FillInTwo(pieces: seq<Piece>, a: string, b: string, values: Values)
    requires a in values && b in values
    ensures FillIn(pieces, [a, b], values) == Fill(Fill(pieces, map[a := values[a]]), map[b := values[b]])
  {
    hide Fill;
    assert [a, b][1..] == [b] && [b][1..] == [];
    var once := Fill(pieces, map[a := values[a]]);
    assert FillIn(once, [b], values) == FillIn(Fill(once, map[b := values[b]]), [], values);
  }

  lemma OrdersOfTwo(order: seq<string>, a: string, b: string)
    requires a != b && IsOrderOf(order, {a, b})
    ensures order == [a, b] || order == [b, a]
  {
    OrderLength(order, {a, b});
    assert order[0] in order && order[1] in order;
  }

  lemma {:induction false} OrderLength(order: seq<string>, names: set<string>)
    requires IsOrderOf(order, names)
    ensures |order| == |names|
    decreases |order|
  {
    if order == [] {
      assert names == {};
    } else {
      assert order[0] in order;
      OrderOfRest(order, names);
      OrderLength(order[1..], names - {order[0]});
    }
  }

  lemma BothWaysAlike(a: string, b: string)
    requires a != b
    ensures var p, q := Tok(a), Tok(b);
            var values: Values := map[a := [p, q, p], b := [q, p, q]];
            FillIn([p, q], [a, b], values) == FillIn([p, q], [b, a], values)
  {
    var p, q := Tok(a), Tok(b);
    var values: Values := map[a := [p, q, p], b := [q, p, q]];
    var first, second: Values := map[a := [p, q, p]], map[b := [q, p, q]];
    hide Fill, FillIn;
    FillInTwo([p, q], a, b, values);
    FillInTwo([p, q], b, a, values);
    FillTwo(p, q, first);
    FillTwo(p, q, second);
    assert [p, q, p] + [q] == [p, q] + [p, q] && [p] + [q, p, q] == [p, q] + [p, q];
    FillJoins([p, q], [p, q], first);
    FillJoins([p, q], [p, q], second);
  }

  /** Values that hold their own tokens can agree although they bring in each other's:
      every order of this template gives one text, whatever the two names are. */
  lemma SelfTokensCanAgree(a: string, b: string)
    requires a != b && IsName(a) && IsName(b)
    ensures var p, q := Tok(a), Tok(b);
            var values: Values := map[a := [p, q, p], b := [q, p, q]];
            && Placeholders(Text([p, q])) == {a, b} && !NothingBroughtIn([p, q], {a, b}, values)
            && AllOrdersAgree(Text([p, q]), Texts(values))
  {
    hide IsName, Placeholders, Text, FillIn, RenderIn, IsOrderOf;
    var p, q := Tok(a), Tok(b);
    var values: Values := map[a := [p, q, p], b := [q, p, q]];
    PlaceholdersAreNames([p, q]);
    assert Names([p, q]) == {a, b};
    BothWaysAlike(a, b);
    RenderIsFillIn([p, q], [a, b], values);
    RenderIsFillIn([p, q], [b, a], values);
    forall order | IsOrderOf(order, {a, b}) ensures order == [a, b] || order == [b, a] { OrdersOfTwo(order, a, b); }
    assert Tok(b) in values[a] && Tok(a) in [p, q];
  }

  // --------------------------------------------------------- spaced placeholders

  function SpacedNames(pieces: seq<Piece>): set<string> {
    set p | p in pieces && p.Spaced? :: p.name
  }

  /** A placeholder with any space inside its braces is found, so its variable is
      demanded, but no value is ever put in its place: for values without double
      braces every spaced piece is left as it was, and the rendered text has a
      placeholder left exactly when the template has a spaced one. */
  lemma SpacedPlaceholdersStay(pieces: seq<Piece>, order: seq<string>, variables: map<string, string>)
    requires WellFormed(pieces) && IsOrderOf(order, Placeholders(Text(pieces)))
    requires forall n | n in Names(pieces) :: n in variables && Lone(variables[n])
    ensures var rendered := Substitute(pieces, variables);
            && RenderIn(Text(pieces), order, variables) == Ok(Text(rendered))
            && (forall i | 0 <= i < |pieces| && pieces[i].Spaced? :: rendered[i] == pieces[i])
            && Placeholders(Text(rendered)) == SpacedNames(pieces)
            && (Placeholders(Text(rendered)) == {} <==> forall p | p in pieces :: !p.Spaced?)
  {
    var values: Values := map n | n in variables :: [Lit(variables[n])];
    var found := Placeholders(Text(pieces));
    PlaceholdersAreNames(pieces);
    LiteralTexts(variables);
    OrderDoesNotMatter(pieces, order, values);
    FillIsSubstitute(pieces, Restrict(values, found));
    var rendered := Substitute(pieces, variables);
    NamesAreSubstituted(pieces, variables);
    assert Substitute(pieces, Texts(Restrict(values, found))) == rendered by { RestrictedTexts(pieces, values); }
    PlaceholdersAreNames(rendered);
  }

  lemma LiteralTexts(variables: map<string, string>)
    ensures Texts(map n | n in variables :: [Lit(variables[n])]) == variables
  {
    forall t: string ensures Text([Lit(t)]) == t { assert [Lit(t)][1..] == []; }
  }

  lemma RestrictedTexts(pieces: seq<Piece>, values: Values)
    requires Names(pieces) <= values.Keys
    ensures Substitute(pieces, Texts(Restrict(values, Names(pieces)))) == Substitute(pieces, Texts(values))
  {
  }

  lemma NamesAreSubstituted(pieces: seq<Piece>, variables: map<string, string>)
    requires WellFormed(pieces) && forall n | n in Names(pieces) :: n in variables && Lone(variables[n])
    ensures var rendered := Substitute(pieces, variables);
            && WellFormed(rendered) && Names(rendered) == SpacedNames(pieces)
            && (SpacedNames(pieces) == {} <==> forall p | p in pieces :: !p.Spaced?)
  {
    hide Lone, IsName, Spaces;
    var rendered := Substitute(pieces, variables);
    forall i | 0 <= i < |pieces|
      ensures Fits(rendered[i]) && !rendered[i].Tok? && (rendered[i].Spaced? <==> pieces[i].Spaced?)
      ensures pieces[i].Spaced? ==> rendered[i] == pieces[i]
    {
      assert pieces[i] in pieces && Fits(pieces[i]);
    }
    forall n | n in Names(rendered) ensures n in SpacedNames(pieces) {
      var p :| p in rendered && !p.Lit? && p.name == n;
      var i :| 0 <= i < |rendered| && rendered[i] == p;
      assert pieces[i] in pieces;
    }
    forall n | n in SpacedNames(pieces) ensures n in Names(rendered) {
      var p :| p in pieces && p.Spaced? && p.name == n;
      var i :| 0 <= i < |pieces| && pieces[i] == p;
      assert rendered[i] in rendered;
    }
    if p :| p in pieces && p.Spaced? { assert p.name in SpacedNames(pieces); }
  }

  // ----------------------------------------------------- which braces are found

  // A letter or underscore, then letters, underscores and digits.
  predicate Identifier(n: string) {
    && n != "" && !('0' <= n[0] <= '9')
    && forall c | c in n :: 'a' <= c <= 'z' || 'A' <= c <= 'Z' || '0' <= c <= '9' || c == '_'
  }

  // Between two pairs of braces: blanks of any script, a name, blanks.
  predicate Blank(c: char) {
    || '\t' <= c <= '\r' || '\U{1c}' <= c <= '\U{20}' || c == '\U{85}' || c == '\U{a0}' || c == '\U{1680}'
    || '\U{2000}' <= c <= '\U{200a}' || c == '\U{2028}' || c == '\U{2029}' || c == '\U{202f}' || c == '\U{205f}'
    || c == '\U{3000}'
  }

  lemma IdentifierIsName(n: string)
    ensures Identifier(n) <==> IsName(n)
  {
    if n != "" { assert n[0] in n; }
  }

  lemma BlankIsSpace(c: char)
    ensures Blank(c) <==> IsSpace(c)
  {
  }

  ghost predicate Holds(text: string, n: string, rest: string) {
    exists before, after: string ::
      && text == "{{" + before + n + after + "}}" + rest && Identifier(n)
      && forall c | c in before + after :: Blank(c)
  }

  lemma SpacesTaken(s: string)
    ensures Spaces(s[..Run(IsSpace, s)]) && s == s[..Run(IsSpace, s)] + AfterSpaces(s)
  {
    hide IsSpace;
  }

  /** Where a placeholder is found at the head of a text, and which: exactly where two
      braces, blanks, an identifier, blanks and two braces stand. */
  lemma MatchesExactly(text: string, n: string, rest: string)
    ensures MatchAt(text) == Some(Match(n, rest)) <==> Holds(text, n, rest)
  {
    hide IsSpace, Blank, Identifier, IsName, Run, AfterSpaces;
    forall c: char ensures Blank(c) <==> IsSpace(c) { BlankIsSpace(c); }
    IdentifierIsName(n);
    if Holds(text, n, rest) {
      var before, after: string :|
        && text == "{{" + before + n + after + "}}" + rest && Identifier(n)
        && forall c | c in before + after :: Blank(c);
      assert forall c | c in before || c in after :: c in before + after;
      MatchSpaced(before, n, after, rest);
    }
    if MatchAt(text) == Some(Match(n, rest)) { MatchHolds(text, n, rest); }
  }

  // The parts of a match, from the left.
  lemma MatchParts(text: string, n: string, rest: string) returns (inner: string, named: string, tail: string)
    requires MatchAt(text) == Some(Match(n, rest))
    ensures text == "{{" + inner && named == AfterSpaces(inner) && named == n + tail && IsName(n)
    ensures AfterSpaces(tail) == "}}" + rest
  {
    hide IsSpace, AfterSpaces, IsName;
    inner := text[2..];
    named := AfterSpaces(inner);
    tail := named[Run(IsNameChar, named)..];
    NameTaken(named);
  }

  lemma MatchHolds(text: string, n: string, rest: string)
    requires MatchAt(text) == Some(Match(n, rest))
    ensures Holds(text, n, rest)
  {
    hide IsSpace, Blank, Identifier, AfterSpaces, MatchAt, Run, IsName;
    forall c: char ensures Blank(c) <==> IsSpace(c) { BlankIsSpace(c); }
    var inner, named, tail := MatchParts(text, n, rest);
    var before, after := inner[..Run(IsSpace, inner)], tail[..Run(IsSpace, tail)];
    SpacesTaken(inner);
    SpacesTaken(tail);
    IdentifierIsName(n);
    assert text == "{{" + before + n + after + "}}" + rest;
    AllBlank(before, after);
  }

  lemma AllBlank(before: string, after: string)
    requires Spaces(before) && Spaces(after)
    ensures forall c | c in before + after :: Blank(c)
  {
    hide IsSpace, Blank;
    forall c: char ensures Blank(c) <==> IsSpace(c) { BlankIsSpace(c); }
  }

  lemma NameTaken(s: string)
    ensures var k := Run(IsNameChar, s); k > 0 && IsNameStart(s[0]) ==> IsName(s[..k])
  {
  }
}
