/** The import clauses of a module, found by a scanner that skips strings and comments. */
module ImportClauses {

  const EXTENDS: string := "EXTENDS"
  const INSTANCE: string := "INSTANCE"
  const COMMA: string := ","

  /** Modules that are never looked up as files. */
  predicate Builtin(name: string) {
    name in ["Naturals", "Integers", "Reals", "Sequences", "FiniteSets", "TLC", "Bags", "Apalache"]
  }

  predicate Letter(c: char) { 'a' <= c <= 'z' || 'A' <= c <= 'Z' || c == '_' }

  predicate WordChar(c: char) { Letter(c) || '0' <= c <= '9' }

  predicate Opens(s: string) { |s| >= 2 && s[0] == '(' && s[1] == '*' }

  predicate Closes(s: string) { |s| >= 2 && s[0] == '*' && s[1] == ')' }

  predicate LineComment(s: string) { |s| >= 2 && s[0] == '\\' && s[1] == '*' }

  // ----- what each piece of text leaves behind it ------------------------------------------------

  /** From inside `depth` block comments to the code behind them. */
  function AfterBlock(s: string, depth: nat): (r: string)
    ensures |r| <= |s|
  {
    if depth == 0 || s == "" then s
    else if Opens(s) then AfterBlock(s[2..], depth + 1)
    else if Closes(s) then AfterBlock(s[2..], depth - 1)
    else AfterBlock(s[1..], depth)
  }

  function AfterLine(s: string): (r: string)
    ensures |r| <= |s|
  {
    if s == "" || s[0] == '\n' then s else AfterLine(s[1..])
  }

  /** From inside a string to the code behind its closing quote. */
  function AfterString(s: string): (r: string)
    ensures |r| <= |s|
  {
    if s == "" then s
    else if s[0] == '\\' && |s| >= 2 then AfterString(s[2..])
    else if s[0] == '"' then s[1..]
    else AfterString(s[1..])
  }

  function WordLength(s: string): (n: nat)
    ensures n <= |s| && (forall i :: 0 <= i < n ==> WordChar(s[i])) && (n < |s| ==> !WordChar(s[n]))
  {
    if s == "" || !WordChar(s[0]) then 0 else 1 + WordLength(s[1..])
  }

  /** The identifiers and commas of some code, in order. */
  function Tokens(s: string): seq<string>
    decreases |s|
  {
    if s == "" then []
    else if LineComment(s) then Tokens(AfterLine(s[1..]))
    else if Opens(s) then Tokens(AfterBlock(s[2..], 1))
    else if s[0] == '"' then Tokens(AfterString(s[1..]))
    else if s[0] == ',' then [COMMA] + Tokens(s[1..])
    else if Letter(s[0]) then [s[..1 + WordLength(s[1..])]] + Tokens(s[1 + WordLength(s[1..])..])
    else Tokens(s[1..])
  }

  // ----- the scanner ----------------------------------------------------------------------------------

  method SkipLine(source: string, from: nat) returns (i: nat)
    requires from < |source| && source[from] != '\n'
    ensures from < i <= |source| && source[i..] == AfterLine(source[from + 1..])
  {
    i := from + 1;
    while i < |source| && source[i] != '\n'
      invariant from < i <= |source| && AfterLine(source[i..]) == AfterLine(source[from + 1..])
    {
      i := i + 1;
    }
  }

  method SkipString(source: string, from: nat) returns (i: nat)
    requires from <= |source|
    ensures from <= i <= |source| && source[i..] == AfterString(source[from..])
  {
    i := from;
    while i < |source|
      invariant from <= i <= |source| && AfterString(source[i..]) == AfterString(source[from..])
    {
      if source[i] == '\\' && i + 1 < |source| {
        assert source[i..][2..] == source[i + 2..];
        i := i + 2;
        continue;
      }
      if source[i] == '"' { return i + 1; }
      i := i + 1;
    }
  }

  method SkipWord(source: string, from: nat) returns (i: nat)
    requires from <= |source|
    ensures i == from + WordLength(source[from..]) <= |source|
  {
    i := from;
    while i < |source| && WordChar(source[i])
      invariant from <= i <= |source| && i + WordLength(source[i..]) == from + WordLength(source[from..])
    {
      i := i + 1;
    }
  }

  /** What is still to come, at some comment depth. */
  function Remaining(s: string, depth: nat): seq<string> { Tokens(AfterBlock(s, depth)) }

  /** One piece of code, outside all comments: the place behind it, the token it yields if any, and
      the depth it leads to. */
  method ScanCode(source: string, from: nat) returns (i: nat, found: seq<string>, depth: nat)
    requires from < |source|
    ensures from < i <= |source| && Remaining(source[from..], 0) == found + Remaining(source[i..], depth)
  {
    hide Tokens, AfterBlock, Remaining, AfterLine, AfterString, WordLength, Letter;
    var rest := source[from..];
    assert rest[1..] == source[from + 1..];
    assert |rest| >= 2 ==> rest[2..] == source[from + 2..];
    InCode(rest);
    i, found, depth := from + 1, [], 0;
    if LineComment(rest) {
      i := SkipLine(source, from);
    } else if Opens(rest) {
      i, depth := from + 2, 1;
    } else if source[from] == '"' {
      i := SkipString(source, from + 1);
    } else if source[from] == ',' {
      found := [COMMA];
    } else if Letter(source[from]) {
      i := SkipWord(source, from + 1);
      assert rest[..i - from] == source[from..i] && rest[i - from..] == source[i..];
      found := [source[from..i]];
    }
  }

  method DependencyTokens(source: string) returns (tokens: seq<string>)
    ensures tokens == Tokens(source)
  {
    hide Tokens, AfterBlock, Remaining;
    tokens := [];
    var i, depth := 0, 0;
    Outside(source);
    assert source[0..] == source;
    while i < |source|
      invariant 0 <= i <= |source| && 0 <= depth
      invariant Tokens(source) == tokens + Remaining(source[i..], depth)
      decreases |source| - i
    {
      if depth > 0 {
        var rest := source[i..];
        assert rest[1..] == source[i + 1..];
        assert |rest| >= 2 ==> rest[2..] == source[i + 2..];
        InBlock(rest, depth);
        if Opens(rest) {
          i, depth := i + 2, depth + 1;
        } else if Closes(rest) {
          i, depth := i + 2, depth - 1;
        } else {
          i := i + 1;
        }
      } else {
        var next, found, deeper := ScanCode(source, i);
        assert tokens + (found + Remaining(source[next..], deeper)) == tokens + found + Remaining(source[next..], deeper);
        i, tokens, depth := next, tokens + found, deeper;
      }
    }
    Ended(depth);
    assert source[i..] == "";
  }

  lemma {:induction false} Ended(depth: nat)
    ensures Remaining("", depth) == []
  {
  }

  lemma {:induction false} Outside(s: string)
    ensures Remaining(s, 0) == Tokens(s)
  {
  }

  lemma {:induction false} InBlock(s: string, depth: nat)
    requires depth > 0 && s != ""
    ensures Opens(s) ==> Remaining(s, depth) == Remaining(s[2..], depth + 1)
    ensures Closes(s) ==> Remaining(s, depth) == Remaining(s[2..], depth - 1)
    ensures !Opens(s) && !Closes(s) ==> Remaining(s, depth) == Remaining(s[1..], depth)
  {
  }

  lemma {:induction false} InCode(s: string)
    requires s != ""
    ensures Remaining(s, 0)
         == if LineComment(s) then Remaining(AfterLine(s[1..]), 0)
            else if Opens(s) then Remaining(s[2..], 1)
            else if s[0] == '"' then Remaining(AfterString(s[1..]), 0)
            else if s[0] == ',' then [COMMA] + Remaining(s[1..], 0)
            else if Letter(s[0]) then [s[..1 + WordLength(s[1..])]] + Remaining(s[1 + WordLength(s[1..])..], 0)
            else Remaining(s[1..], 0)
  {
  }

  // ----- comments and strings are transparent ------------------------------------------------------

  /** Text that neither opens nor closes a comment, not even together with what follows it. */
  ghost predicate Plain(body: string) {
    && (forall i :: 0 <= i < |body| ==> !Opens(body[i..]) && !Closes(body[i..]))
    && (body != "" ==> body[|body| - 1] != '(')
  }

  lemma {:induction false} PlainIsSkipped(body: string, rest: string, depth: nat)
    requires Plain(body) && depth > 0
    requires body != "" && body[|body| - 1] == '*' ==> rest == "" || rest[0] != ')'
    ensures AfterBlock(body + rest, depth) == AfterBlock(rest, depth)
  {
    if body == "" {
      assert body + rest == rest;
    } else {
      var s := body + rest;
      assert s[1..] == body[1..] + rest;
      assert !Opens(body[0..]) && !Closes(body[0..]);
      assert forall i :: 0 <= i < |body[1..]| ==> body[1..][i..] == body[i + 1..];
      PlainIsSkipped(body[1..], rest, depth);
    }
  }

  /** The inside of a comment: text, and comments inside it, to any depth. */
  datatype Comment = Last(text: string) | Then(text: string, inner: Comment, rest: Comment)

  function Render(c: Comment): string {
    match c
    case Last(text) => text
    case Then(text, inner, rest) => text + ("(*" + (Render(inner) + ("*)" + Render(rest))))
  }

  ghost predicate WellNested(c: Comment) {
    match c
    case Last(text) => Plain(text)
    case Then(text, inner, rest) => Plain(text) && WellNested(inner) && WellNested(rest)
  }

  /** From inside a comment, its rendered rest leads behind the closing that belongs to it. */
  lemma {:induction false} CommentIsSkipped(c: Comment, code: string, depth: nat)
    requires WellNested(c) && depth > 0
    ensures AfterBlock(Render(c) + ("*)" + code), depth) == AfterBlock(code, depth - 1)
  {
    var closing := "*)" + code;
    CloseStep(code, depth);
    match c
    case Last(text) =>
      hide AfterBlock;
      PlainIsSkipped(text, closing, depth);
    case Then(text, inner, rest) =>
      var later := Render(rest) + closing;
      var behind := Render(inner) + ("*)" + later);
      OpenStep(behind, depth);
      Reassociate(text, Render(inner), Render(rest), closing);
      hide Render, AfterBlock, Plain;
      PlainIsSkipped(text, "(*" + behind, depth);
      CommentIsSkipped(inner, later, depth + 1);
      CommentIsSkipped(rest, code, depth);
  }

  lemma {:induction false} OpenStep(s: string, depth: nat)
    requires depth > 0
    ensures AfterBlock("(*" + s, depth) == AfterBlock(s, depth + 1)
  {
    assert ("(*" + s)[2..] == s;
  }

  lemma {:induction false} CloseStep(s: string, depth: nat)
    requires depth > 0
    ensures AfterBlock("*)" + s, depth) == AfterBlock(s, depth - 1)
  {
    assert ("*)" + s)[2..] == s;
  }

  lemma {:induction false} Reassociate(text: string, inner: string, rest: string, closing: string)
    ensures text + ("(*" + (inner + ("*)" + rest))) + closing == text + ("(*" + (inner + ("*)" + (rest + closing))))
  {
  }

  /** A block comment in front of some code, however deeply nested, changes none of its tokens. */
  lemma {:induction false} CommentIsTransparent(c: Comment, code: string)
    requires WellNested(c)
    ensures Tokens("(*" + (Render(c) + ("*)" + code))) == Tokens(code)
  {
    var s := "(*" + (Render(c) + ("*)" + code));
    assert s[0] == '(' && s[1] == '*' && s[2..] == Render(c) + ("*)" + code);
    CommentIsSkipped(c, code, 1);
  }

  lemma {:induction false} LineCommentIsTransparent(body: string, code: string)
    requires '\n' !in body
    ensures Tokens("\\*" + body + "\n" + code) == Tokens(code)
  {
    var s := "\\*" + body + "\n" + code;
    var tail := "\n" + code;
    assert s[0] == '\\' && s[1] == '*' && s[1..] == ("*" + body) + tail;
    ToLineEnd("*" + body, tail);
    assert tail[1..] == code;
  }

  lemma {:induction false} ToLineEnd(body: string, tail: string)
    requires '\n' !in body && tail != "" && tail[0] == '\n'
    ensures AfterLine(body + tail) == tail
  {
    if body == "" {
      assert body + tail == tail;
    } else {
      assert (body + tail)[1..] == body[1..] + tail;
      ToLineEnd(body[1..], tail);
    }
  }

  /** The inside of a string: a backslash takes the next character with it, and no other quote. */
  ghost predicate StringBody(s: string) {
    s == "" || (if s[0] == '\\' then |s| >= 2 && StringBody(s[2..]) else s[0] != '"' && StringBody(s[1..]))
  }

  /** A string, escapes included, contributes no tokens. */
  lemma {:induction false} StringIsTransparent(body: string, code: string)
    requires StringBody(body)
    ensures Tokens("\"" + body + "\"" + code) == Tokens(code)
  {
    var s := "\"" + body + "\"" + code;
    var tail := "\"" + code;
    assert s[0] == '"' && s[1..] == body + tail;
    ToQuote(body, tail);
    assert tail[1..] == code;
  }

  lemma {:induction false} ToQuote(body: string, tail: string)
    requires StringBody(body) && tail != "" && tail[0] == '"'
    ensures AfterString(body + tail) == tail[1..]
  {
    if body == "" {
      assert body + tail == tail;
    } else if body[0] == '\\' {
      assert (body + tail)[2..] == body[2..] + tail;
      ToQuote(body[2..], tail);
    } else {
      assert (body + tail)[1..] == body[1..] + tail;
      ToQuote(body[1..], tail);
    }
  }

  // ----- clauses ----------------------------------------------------------------------------------------

  function ImportsOf(ts: seq<string>): seq<string>
    decreases |ts|, 0
  {
    if ts == [] then []
    else if ts[0] == EXTENDS then
      if |ts| < 2 || ts[1] == COMMA then ImportsOf(ts[1..]) else [ts[1]] + MoreOf(ts[2..])
    else if ts[0] == INSTANCE && |ts| >= 2 then [ts[1]] + ImportsOf(ts[2..])
    else ImportsOf(ts[1..])
  }

  /** The rest of an EXTENDS list, and then whatever follows it. */
  function MoreOf(ts: seq<string>): seq<string>
    decreases |ts|, 1
  {
    if |ts| >= 2 && ts[0] == COMMA && ts[1] != COMMA then [ts[1]] + MoreOf(ts[2..]) else ImportsOf(ts)
  }

  function ImportNames(source: string): seq<string> { ImportsOf(Tokens(source)) }

  /** The names a module imports, in order, by a single pass over its tokens. */
  method FindImports(source: string) returns (names: seq<string>)
    ensures names == ImportNames(source)
  {
    hide Tokens, ImportsOf, MoreOf;
    var tokens := DependencyTokens(source);
    names := [];
    var i := 0;
    assert tokens[0..] == tokens;
    while i < |tokens|
      invariant 0 <= i <= |tokens| && ImportsOf(tokens) == names + ImportsOf(tokens[i..])
      decreases |tokens| - i
    {
      Clause(tokens[i..]);
      var before := names;
      if tokens[i] == EXTENDS && i + 1 < |tokens| && tokens[i + 1] != COMMA {
        names := names + [tokens[i + 1]];
        assert tokens[i..][2..] == tokens[i + 2..];
        assert before + ([tokens[i + 1]] + MoreOf(tokens[i + 2..])) == names + MoreOf(tokens[i + 2..]);
        i, names := FinishList(tokens, i + 2, names);
      } else if tokens[i] == INSTANCE && i + 1 < |tokens| {
        names := names + [tokens[i + 1]];
        assert tokens[i..][2..] == tokens[i + 2..];
        assert before + ([tokens[i + 1]] + ImportsOf(tokens[i + 2..])) == names + ImportsOf(tokens[i + 2..]);
        i := i + 2;
      } else {
        assert tokens[i..][1..] == tokens[i + 1..];
        i := i + 1;
      }
    }
    NoTokens();
    assert tokens[i..] == [];
  }

  method FinishList(tokens: seq<string>, from: nat, found: seq<string>) returns (j: nat, names: seq<string>)
    requires from <= |tokens|
    ensures from <= j <= |tokens| && names + ImportsOf(tokens[j..]) == found + MoreOf(tokens[from..])
  {
    hide ImportsOf, MoreOf;
    j, names := from, found;
    MoreUnfolds(tokens[j..]);
    while j + 1 < |tokens| && tokens[j] == COMMA && tokens[j + 1] != COMMA
      invariant from <= j <= |tokens| && names + MoreOf(tokens[j..]) == found + MoreOf(tokens[from..])
    {
      MoreUnfolds(tokens[j..]);
      assert tokens[j..][2..] == tokens[j + 2..];
      assert names + ([tokens[j + 1]] + MoreOf(tokens[j + 2..])) == names + [tokens[j + 1]] + MoreOf(tokens[j + 2..]);
      j, names := j + 2, names + [tokens[j + 1]];
    }
    MoreUnfolds(tokens[j..]);
  }

  lemma {:induction false} NoTokens()
    ensures ImportsOf([]) == []
  {
  }

  lemma {:induction false} MoreUnfolds(ts: seq<string>)
    ensures MoreOf(ts) == if |ts| >= 2 && ts[0] == COMMA && ts[1] != COMMA then [ts[1]] + MoreOf(ts[2..]) else ImportsOf(ts)
  {
  }

  lemma {:induction false} Clause(ts: seq<string>)
    requires ts != []
    ensures ImportsOf(ts)
         == if ts[0] == EXTENDS && |ts| >= 2 && ts[1] != COMMA then [ts[1]] + MoreOf(ts[2..])
            else if ts[0] == INSTANCE && |ts| >= 2 then [ts[1]] + ImportsOf(ts[2..])
            else ImportsOf(ts[1..])
  {
    assert EXTENDS[0] != INSTANCE[0];
  }

  function Listed(names: seq<string>): seq<string> {
    if names == [] then [] else [COMMA, names[0]] + Listed(names[1..])
  }

  /** Every list that is written is found, name by name, and the clauses behind it too. */
  lemma {:induction false} ExtendsClause(first: string, names: seq<string>, rest: seq<string>)
    requires first != COMMA && COMMA !in names && !Prolongs(rest)
    ensures ImportsOf([EXTENDS, first] + Listed(names) + rest) == [first] + names + ImportsOf(rest)
  {
    var ts := [EXTENDS, first] + Listed(names) + rest;
    assert ts[0] == EXTENDS && ts[1] == first && ts[2..] == Listed(names) + rest;
    hide ImportsOf, MoreOf, Listed;
    Clause(ts);
    ListFound(names, rest);
    assert [first] + (names + ImportsOf(rest)) == [first] + names + ImportsOf(rest);
  }

  lemma {:induction false} ListFound(names: seq<string>, rest: seq<string>)
    requires COMMA !in names && !Prolongs(rest)
    ensures MoreOf(Listed(names) + rest) == names + ImportsOf(rest)
  {
    hide ImportsOf;
    if names == [] {
      assert Listed(names) + rest == rest && names + ImportsOf(rest) == ImportsOf(rest);
    } else {
      var ts := Listed(names) + rest;
      assert ts[0] == COMMA && ts[1] == names[0] && ts[2..] == Listed(names[1..]) + rest;
      ListFound(names[1..], rest);
      assert [names[0]] + (names[1..] + ImportsOf(rest)) == names + ImportsOf(rest);
    }
  }

  /** What the tokens of a module are made of: import clauses and everything else. */
  datatype Item = Extends(first: string, names: seq<string>) | Instance(name: string) | Other(token: string)

  predicate Proper(item: Item) {
    match item
    case Extends(first, names) => first != COMMA && COMMA !in names
    case Instance(_) => true
    case Other(token) => token != EXTENDS && token != INSTANCE
  }

  /** These tokens would go on with an EXTENDS list that stands before them. */
  predicate Prolongs(ts: seq<string>) { |ts| >= 2 && ts[0] == COMMA && ts[1] != COMMA }

  /** Every item is proper, and every EXTENDS list is written to its end. */
  ghost predicate WellWritten(items: seq<Item>) {
    forall k :: 0 <= k < |items| ==> Proper(items[k]) && (items[k].Extends? ==> !Prolongs(AllTokens(items[k + 1..])))
  }

  function ItemTokens(item: Item): seq<string> {
    match item
    case Extends(first, names) => [EXTENDS, first] + Listed(names)
    case Instance(name) => [INSTANCE, name]
    case Other(token) => [token]
  }

  function ItemNames(item: Item): seq<string> {
    match item
    case Extends(first, names) => [first] + names
    case Instance(name) => [name]
    case Other(_) => []
  }

  function AllTokens(items: seq<Item>): seq<string> {
    if items == [] then [] else ItemTokens(items[0]) + AllTokens(items[1..])
  }

  function AllNames(items: seq<Item>): seq<string> {
    if items == [] then [] else ItemNames(items[0]) + AllNames(items[1..])
  }

  /** Whatever import clauses a module is written with, between whatever other tokens, commas
      included, the names found are theirs, all of them and in order. */
  lemma {:induction false} EveryClauseIsFound(items: seq<Item>)
    requires WellWritten(items)
    ensures ImportsOf(AllTokens(items)) == AllNames(items)
  {
    if items != [] {
      var rest := items[1..];
      forall k | 0 <= k < |rest| ensures Proper(rest[k]) && (rest[k].Extends? ==> !Prolongs(AllTokens(rest[k + 1..]))) {
        assert rest[k] == items[k + 1] && rest[k + 1..] == items[k + 1 + 1..];
      }
      hide ImportsOf, Proper, Prolongs;
      EveryClauseIsFound(rest);
      OneItem(items[0], AllTokens(rest));
    }
  }

  lemma {:induction false} OneItem(item: Item, rest: seq<string>)
    requires Proper(item) && (item.Extends? ==> !Prolongs(rest))
    ensures ImportsOf(ItemTokens(item) + rest) == ItemNames(item) + ImportsOf(rest)
  {
    var ts := ItemTokens(item) + rest;
    hide ImportsOf, Listed;
    match item
    case Extends(first, names) => ExtendsClause(first, names, rest);
    case Instance(name) =>
      assert ts[2..] == rest && EXTENDS[0] != INSTANCE[0];
      Clause(ts);
    case Other(token) =>
      assert ts[1..] == rest;
      Clause(ts);
      assert [] + ImportsOf(rest) == ImportsOf(rest);
  }

  // ----- clauses as they are written -----------------------------------------------------------------------

  predicate NameChar(c: char) { 'a' <= c <= 'z' || 'A' <= c <= 'Z' || '0' <= c <= '9' || c == '_' }

  /** A word of letters, digits and underscores that does not begin with a digit. */
  predicate Name(word: string) {
    word != "" && !('0' <= word[0] <= '9') && forall i :: 0 <= i < |word| ==> NameChar(word[i])
  }

  /** What follows a written word does not go on with it. */
  predicate Apart(rest: string) { rest == "" || !NameChar(rest[0]) }

  predicate Blank(c: char) { c == ' ' || c == '\n' || c == '\t' || c == '\r' }

  lemma {:induction false} WholeWord(word: string, rest: string)
    requires (forall i :: 0 <= i < |word| ==> NameChar(word[i])) && Apart(rest)
    ensures WordLength(word + rest) == |word|
    decreases |word|
  {
    if word == "" {
      assert word + rest == rest;
    } else {
      assert (word + rest)[1..] == word[1..] + rest;
      WholeWord(word[1..], rest);
    }
  }

  /** A written name is one token. */
  lemma {:induction false} WordIsOneToken(word: string, rest: string)
    requires Name(word) && Apart(rest)
    ensures Tokens(word + rest) == [word] + Tokens(rest)
  {
    var s := word + rest;
    assert s[1..] == word[1..] + rest;
    WholeWord(word[1..], rest);
    assert s[0] == word[0] && s[..|word|] == word && s[|word|..] == rest;
  }

  lemma {:induction false} BlankIsNoToken(c: char, rest: string)
    requires Blank(c)
    ensures Tokens([c] + rest) == Tokens(rest)
  {
    assert ([c] + rest)[1..] == rest;
  }

  lemma {:induction false} CommaIsAToken(rest: string)
    ensures Tokens([','] + rest) == [COMMA] + Tokens(rest)
  {
    assert ([','] + rest)[1..] == rest;
  }

  /** The rest of a list of modules, its line end, and the code behind it. */
  function WrittenList(names: seq<string>, code: string): string {
    if names == [] then ['\n'] + code else [','] + ([' '] + (names[0] + WrittenList(names[1..], code)))
  }

  lemma {:induction false} ListIsApart(names: seq<string>, code: string)
    ensures Apart(WrittenList(names, code))
  {
  }

  lemma {:induction false} WrittenListTokens(names: seq<string>, code: string)
    requires forall k :: 0 <= k < |names| ==> Name(names[k])
    ensures Tokens(WrittenList(names, code)) == Listed(names) + Tokens(code)
    decreases |names|
  {
    hide Tokens;
    if names == [] {
      BlankIsNoToken('\n', code);
      assert Listed(names) + Tokens(code) == Tokens(code);
    } else {
      var more := WrittenList(names[1..], code);
      WrittenListTokens(names[1..], code);
      ListIsApart(names[1..], code);
      CommaIsAToken([' '] + (names[0] + more));
      BlankIsNoToken(' ', names[0] + more);
      WordIsOneToken(names[0], more);
      assert [COMMA] + ([names[0]] + (Listed(names[1..]) + Tokens(code))) == Listed(names) + Tokens(code);
    }
  }

  lemma {:induction false} KeywordsAreNames()
    ensures Name(EXTENDS) && Name(INSTANCE)
  {
  }

  lemma {:induction false} NamesAreNotCommas(names: seq<string>)
    requires forall k :: 0 <= k < |names| ==> Name(names[k])
    ensures COMMA !in names
  {
    assert !NameChar(COMMA[0]);
  }

  lemma {:induction false} WrittenExtendsTokens(first: string, names: seq<string>, code: string)
    requires Name(first) && forall k :: 0 <= k < |names| ==> Name(names[k])
    ensures Tokens(EXTENDS + ([' '] + (first + WrittenList(names, code)))) == [EXTENDS, first] + Listed(names) + Tokens(code)
  {
    KeywordsAreNames();
    hide Tokens, WrittenList, Name, Listed;
    var list := WrittenList(names, code);
    WrittenListTokens(names, code);
    ListIsApart(names, code);
    WordIsOneToken(EXTENDS, [' '] + (first + list));
    BlankIsNoToken(' ', first + list);
    WordIsOneToken(first, list);
    assert [EXTENDS] + ([first] + (Listed(names) + Tokens(code))) == [EXTENDS, first] + Listed(names) + Tokens(code);
  }

  /** A module that says EXTENDS with names made of letters, digits and underscores imports exactly those,
      and whatever the code behind the clause imports. */
  lemma {:induction false} WrittenExtends(first: string, names: seq<string>, code: string)
    requires Name(first) && (forall k :: 0 <= k < |names| ==> Name(names[k])) && !Prolongs(Tokens(code))
    ensures ImportNames(EXTENDS + ([' '] + (first + WrittenList(names, code)))) == [first] + names + ImportNames(code)
  {
    NamesAreNotCommas([first]);
    NamesAreNotCommas(names);
    assert first in [first];
    hide Tokens, ImportsOf, WrittenList, Name, Listed, Prolongs;
    WrittenExtendsTokens(first, names, code);
    ExtendsClause(first, names, Tokens(code));
  }

  /** And so for INSTANCE and the one name behind it. */
  lemma {:induction false} WrittenInstance(name: string, code: string)
    requires Name(name)
    ensures ImportNames(INSTANCE + ([' '] + (name + (['\n'] + code)))) == [name] + ImportNames(code)
  {
    KeywordsAreNames();
    hide Tokens, ImportsOf, Name;
    WordIsOneToken(INSTANCE, [' '] + (name + (['\n'] + code)));
    BlankIsNoToken(' ', name + (['\n'] + code));
    WordIsOneToken(name, ['\n'] + code);
    BlankIsNoToken('\n', code);
    var ts := [INSTANCE] + ([name] + Tokens(code));
    assert ts[0] == INSTANCE && ts[1] == name && ts[2..] == Tokens(code);
    Clause(ts);
    assert INSTANCE[0] != EXTENDS[0];
  }
}
