/** Redaction of secrets in nested values: each secret is cut out of every string,
    longest first, and values under secret-looking keys are dropped whole. */
module Redaction {
  import opened Wrappers

  const MARK := "REDACTED"
  const TOKEN := "[" + MARK + "]"

  // ---------- Strings ----------

  /** `s` contains `x`. */
  predicate Occurs(s: string, x: string) {
    x <= s || (s != "" && Occurs(s[1..], x))
  }

  /** `s.split(x).join(TOKEN)` */
  function Replace(s: string, x: string): string
    requires x != ""
    decreases |s|
  {
    if s == "" then ""
    else if x <= s then TOKEN + Replace(s[|x|..], x)
    else [s[0]] + Replace(s[1..], x)
  }

  predicate NoBracket(x: string) {
    forall i :: 0 <= i < |x| ==> x[i] != '[' && x[i] != ']'
  }

  lemma {:induction false} OccursInTail(s: string, n: nat, x: string)
    requires n <= |s|
    ensures Occurs(s[n..], x) ==> Occurs(s, x)
  {
    if n > 0 {
      OccursInTail(s[1..], n - 1, x);
      assert s[1..][n - 1..] == s[n..];
    }
  }

  lemma {:induction false} OccursTransitive(s: string, x: string, y: string)
    requires Occurs(s, x) && Occurs(x, y)
    ensures Occurs(s, y)
    decreases |s|
  {
    if x <= s {
      OccursInPrefix(s, x, y);
    } else {
      OccursTransitive(s[1..], x, y);
    }
  }

  lemma {:induction false} OccursInPrefix(s: string, x: string, y: string)
    requires x <= s && Occurs(x, y)
    ensures Occurs(s, y)
    decreases |s|
  {
    if y <= x {
      assert y <= s;
    } else {
      OccursInPrefix(s[1..], x[1..], y);
    }
  }

  lemma {:induction false} BracketEndsPrefix(a: string, t: string, y: string)
    requires NoBracket(y)
    ensures y <= a + "]" + t ==> y <= a
    decreases |a|
  {
    var s := a + "]" + t;
    if a == "" {
      assert s[0] == ']';
    } else if y != "" {
      assert NoBracket(y[1..]);
      BracketEndsPrefix(a[1..], t, y[1..]);
      assert s[1..] == a[1..] + "]" + t;
      if y <= s {
        assert y[1..] <= s[1..];
        assert y == [a[0]] + y[1..];
      }
    }
  }

  /** A bracket-free string cannot straddle a closing bracket. */
  lemma {:induction false} BracketSeparates(a: string, t: string, y: string)
    requires y != "" && NoBracket(y)
    ensures Occurs(a + "]" + t, y) ==> Occurs(a, y) || Occurs(t, y)
    decreases |a|
  {
    var s := a + "]" + t;
    BracketEndsPrefix(a, t, y);
    if y <= s {
    } else if a == "" {
      assert s[1..] == t;
    } else {
      assert s[1..] == a[1..] + "]" + t;
      BracketSeparates(a[1..], t, y);
    }
  }

  lemma TokenSeparates(t: string, y: string)
    requires y != "" && NoBracket(y)
    ensures Occurs(TOKEN + t, y) ==> Occurs(MARK, y) || Occurs(t, y)
  {
    var s := TOKEN + t;
    assert s[0] == '[' && !(y <= s);
    assert s[1..] == MARK + "]" + t;
    BracketSeparates(MARK, t, y);
  }

  /** A bracket-free prefix of the result was a prefix of the input. */
  lemma {:induction false} PrefixSurvives(s: string, x: string, y: string)
    requires x != "" && NoBracket(y)
    ensures y <= Replace(s, x) ==> y <= s
    decreases |s|
  {
    if s != "" && y != "" {
      if x <= s {
        assert Replace(s, x)[0] == '[';
        assert y[0] != '[';
      } else {
        assert NoBracket(y[1..]);
        PrefixSurvives(s[1..], x, y[1..]);
        if y <= Replace(s, x) {
          assert y[1..] <= Replace(s[1..], x);
          assert y == [s[0]] + y[1..];
        }
      }
    }
  }

  /** Replacing removes its secret and creates no other. */
  lemma {:induction false} ReplaceLeavesNone(s: string, x: string, y: string)
    requires x != "" && y != "" && NoBracket(y) && !Occurs(MARK, y)
    requires y == x || !Occurs(s, y)
    ensures !Occurs(Replace(s, x), y)
    decreases |s|
  {
    if s != "" {
      if x <= s {
        OccursInTail(s, |x|, y);
        ReplaceLeavesNone(s[|x|..], x, y);
        TokenSeparates(Replace(s[|x|..], x), y);
      } else {
        ReplaceLeavesNone(s[1..], x, y);
        PrefixSurvives(s, x, y);
        assert Replace(s, x)[1..] == Replace(s[1..], x);
      }
    }
  }

  lemma {:induction false} ReplaceOfAbsent(s: string, x: string)
    requires x != "" && !Occurs(s, x)
    ensures Replace(s, x) == s
    decreases |s|
  {
    if s != "" {
      ReplaceOfAbsent(s[1..], x);
    }
  }

  /** Once the mark is there it stays, even if a secret cuts into it. */
  lemma {:induction false} ReplaceShowsMark(s: string, x: string)
    requires x != "" && Occurs(s, x)
    ensures Occurs(Replace(s, x), MARK)
    decreases |s|
  {
    var r := Replace(s, x);
    if x <= s {
      assert r[1..] == MARK + "]" + Replace(s[|x|..], x);
      assert MARK <= r[1..];
    } else {
      ReplaceShowsMark(s[1..], x);
      assert r[1..] == Replace(s[1..], x);
    }
  }

  // ---------- The list of secrets ----------

  /** Non-empty secrets, each once, in their first order. */
  function Unique(secrets: seq<string>, known: set<string>): seq<string> {
    if secrets == [] then []
    else if secrets[0] == "" || secrets[0] in known then Unique(secrets[1..], known)
    else [secrets[0]] + Unique(secrets[1..], known + {secrets[0]})
  }

  function Insert(x: string, sorted: seq<string>): seq<string> {
    if sorted == [] || |x| >= |sorted[0]| then [x] + sorted else [sorted[0]] + Insert(x, sorted[1..])
  }

  function Sort(xs: seq<string>): seq<string> {
    if xs == [] then [] else Insert(xs[0], Sort(xs[1..]))
  }

  function Ordered(secrets: seq<string>): seq<string> {
    Sort(Unique(secrets, {}))
  }

  ghost predicate Distinct(xs: seq<string>) {
    forall i, j :: 0 <= i < j < |xs| ==> xs[i] != xs[j]
  }

  ghost predicate LongestFirst(xs: seq<string>) {
    forall i, j :: 0 <= i < j < |xs| ==> |xs[i]| >= |xs[j]| && xs[i] != xs[j]
  }

  lemma {:induction false} UniqueKeeps(secrets: seq<string>, known: set<string>, x: string)
    ensures x in Unique(secrets, known) <==> x in secrets && x != "" && x !in known
    decreases |secrets|
  {
    if secrets != [] {
      var later := if secrets[0] == "" || secrets[0] in known then known else known + {secrets[0]};
      UniqueKeeps(secrets[1..], later, x);
      assert x in secrets <==> x == secrets[0] || x in secrets[1..];
    }
  }

  lemma {:induction false} UniqueIsDistinct(secrets: seq<string>, known: set<string>)
    ensures Distinct(Unique(secrets, known))
    decreases |secrets|
  {
    if secrets != [] {
      if secrets[0] == "" || secrets[0] in known {
        UniqueIsDistinct(secrets[1..], known);
        assert Unique(secrets, known) == Unique(secrets[1..], known);
      } else {
        UniqueIsDistinct(secrets[1..], known + {secrets[0]});
        UniqueKeeps(secrets[1..], known + {secrets[0]}, secrets[0]);
        var tail := Unique(secrets[1..], known + {secrets[0]});
        assert Unique(secrets, known) == [secrets[0]] + tail;
      }
    }
  }

  lemma {:induction false} InsertKeeps(x: string, sorted: seq<string>)
    requires LongestFirst(sorted) && x !in sorted
    ensures LongestFirst(Insert(x, sorted))
    ensures forall y :: y in Insert(x, sorted) <==> y == x || y in sorted
    decreases |sorted|
  {
    if sorted == [] || |x| >= |sorted[0]| {
    } else {
      InsertKeeps(x, sorted[1..]);
      assert forall y :: y in sorted <==> y == sorted[0] || y in sorted[1..];
      var tail := Insert(x, sorted[1..]);
      forall j | 0 <= j < |tail|
        ensures |sorted[0]| >= |tail[j]| && sorted[0] != tail[j]
      {
        assert tail[j] == x || tail[j] in sorted[1..];
      }
    }
  }

  lemma {:induction false} SortKeeps(xs: seq<string>)
    requires Distinct(xs)
    ensures LongestFirst(Sort(xs))
    ensures forall y :: y in Sort(xs) <==> y in xs
  {
    if xs != [] {
      SortKeeps(xs[1..]);
      assert forall y :: y in xs <==> y == xs[0] || y in xs[1..];
      InsertKeeps(xs[0], Sort(xs[1..]));
    }
  }

  ghost predicate NonEmpty(secrets: seq<string>) {
    forall i :: 0 <= i < |secrets| ==> secrets[i] != ""
  }

  lemma OrderedSecrets(secrets: seq<string>)
    ensures LongestFirst(Ordered(secrets)) && NonEmpty(Ordered(secrets))
    ensures forall y :: y in Ordered(secrets) <==> y in secrets && y != ""
  {
    UniqueIsDistinct(secrets, {});
    SortKeeps(Unique(secrets, {}));
    forall y
      ensures y in Unique(secrets, {}) <==> y in secrets && y != ""
    {
      UniqueKeeps(secrets, {}, y);
    }
    forall i | 0 <= i < |Ordered(secrets)|
      ensures Ordered(secrets)[i] != ""
    {
      assert Ordered(secrets)[i] in Ordered(secrets);
    }
  }

  // ---------- One string, all secrets ----------

  function Fold(s: string, secrets: seq<string>): string
    requires NonEmpty(secrets)
    decreases |secrets|
  {
    if secrets == [] then s else Fold(Replace(s, secrets[0]), secrets[1..])
  }

  method RedactText(input: string, secrets: seq<string>) returns (output: string)
    requires NonEmpty(secrets)
    ensures output == Fold(input, secrets)
  {
    output := input;
    for i := 0 to |secrets|
      invariant Fold(input, secrets) == Fold(output, secrets[i..])
    {
      assert secrets[i..][1..] == secrets[i + 1..];
      output := Replace(output, secrets[i]);
    }
  }

  lemma {:induction false} AbsentStaysAbsent(s: string, secrets: seq<string>, y: string)
    requires NonEmpty(secrets) && y != "" && NoBracket(y) && !Occurs(MARK, y) && !Occurs(s, y)
    ensures !Occurs(Fold(s, secrets), y)
    decreases |secrets|
  {
    if secrets != [] {
      ReplaceLeavesNone(s, secrets[0], y);
      AbsentStaysAbsent(Replace(s, secrets[0]), secrets[1..], y);
    }
  }

  lemma {:induction false} FoldLeavesNone(s: string, secrets: seq<string>, y: string)
    requires NonEmpty(secrets) && y in secrets && NoBracket(y) && !Occurs(MARK, y)
    ensures !Occurs(Fold(s, secrets), y)
    decreases |secrets|
  {
    if secrets[0] == y {
      ReplaceLeavesNone(s, y, y);
      AbsentStaysAbsent(Replace(s, y), secrets[1..], y);
    } else {
      FoldLeavesNone(Replace(s, secrets[0]), secrets[1..], y);
    }
  }

  lemma {:induction false} MarkStays(s: string, secrets: seq<string>)
    requires NonEmpty(secrets) && Occurs(s, MARK)
    ensures Occurs(Fold(s, secrets), MARK)
    decreases |secrets|
  {
    if secrets != [] {
      if Occurs(s, secrets[0]) {
        ReplaceShowsMark(s, secrets[0]);
      } else {
        ReplaceOfAbsent(s, secrets[0]);
      }
      MarkStays(Replace(s, secrets[0]), secrets[1..]);
    }
  }

  lemma {:induction false} LongerDoesNotOccur(s: string, x: string)
    requires |x| >= |s|
    ensures Occurs(s, x) ==> s == x
  {
    if s != "" {
      LongerDoesNotOccur(s[1..], x);
    }
  }

  /** Redacting a secret alone leaves the mark. */
  lemma {:induction false} SecretBecomesMark(secrets: seq<string>, x: string)
    requires NonEmpty(secrets) && LongestFirst(secrets) && x in secrets
    ensures Occurs(Fold(x, secrets), MARK)
    decreases |secrets|
  {
    if secrets[0] == x {
      assert x[|x|..] == "" && Replace(x, x) == TOKEN + "";
      assert TOKEN[1..] == MARK + "]" && MARK <= TOKEN[1..];
      MarkStays(Replace(x, x), secrets[1..]);
    } else {
      var i :| 0 <= i < |secrets| && secrets[i] == x;
      assert |secrets[0]| >= |x|;
      LongerDoesNotOccur(x, secrets[0]);
      ReplaceOfAbsent(x, secrets[0]);
      SecretBecomesMark(secrets[1..], x);
    }
  }

  // ---------- Nested values ----------

  datatype Json = Text(text: string) | Other | List(items: seq<Json>) | Object(fields: seq<Field>)
  datatype Field = Field(key: string, value: Json)

  function Lower(c: char): char {
    if 'A' <= c <= 'Z' then c - 'A' + 'a' else c
  }

  function LowerCase(s: string): string {
    seq(|s|, i requires 0 <= i < |s| => Lower(s[i]))
  }

  predicate IsLineEnd(c: char) {
    c == '\n' || c == '\r' || c == '\U{2028}' || c == '\U{2029}'
  }

  predicate ApiKeyAt(s: string) {
    "api" <= s && ("key" <= s[3..] || (|s| > 3 && !IsLineEnd(s[3]) && "key" <= s[4..]))
  }

  predicate ShowsApiKey(s: string) {
    ApiKeyAt(s) || (s != "" && ShowsApiKey(s[1..]))
  }

  /** `/token|secret|password|api.?key/i` */
  predicate IsSecretKey(key: string) {
    var k := LowerCase(key);
    Occurs(k, "token") || Occurs(k, "secret") || Occurs(k, "password") || ShowsApiKey(k)
  }

  function Visit(v: Json, secrets: seq<string>): Json
    requires NonEmpty(secrets)
  {
    match v
    case Text(text) => Text(Fold(text, secrets))
    case Other => Other
    case List(items) => List(seq(|items|, i requires 0 <= i < |items| => Visit(items[i], secrets)))
    case Object(fields) =>
      Object(seq(|fields|, i requires 0 <= i < |fields| =>
               Field(fields[i].key,
                     if IsSecretKey(fields[i].key) then Text(TOKEN) else Visit(fields[i].value, secrets))))
  }

  function Redact(v: Json, secrets: seq<string>): Json {
    OrderedSecrets(secrets);
    Visit(v, Ordered(secrets))
  }

  /** No string value anywhere in the tree contains the secret. */
  ghost predicate Clean(v: Json, x: string) {
    match v
    case Text(text) => !Occurs(text, x)
    case Other => true
    case List(items) => forall i :: 0 <= i < |items| ==> Clean(items[i], x)
    case Object(fields) => forall i :: 0 <= i < |fields| ==> Clean(fields[i].value, x)
  }

  lemma {:induction false} VisitIsClean(v: Json, secrets: seq<string>, x: string)
    requires NonEmpty(secrets) && x in secrets && NoBracket(x) && !Occurs(MARK, x)
    ensures Clean(Visit(v, secrets), x)
  {
    match v {
      case Text(text) => FoldLeavesNone(text, secrets, x);
      case Other =>
      case List(items) =>
        forall i | 0 <= i < |items|
          ensures Clean(Visit(items[i], secrets), x)
        {
          VisitIsClean(items[i], secrets, x);
        }
      case Object(fields) =>
        forall i | 0 <= i < |fields|
          ensures Clean(Visit(v, secrets).fields[i].value, x)
        {
          if IsSecretKey(fields[i].key) {
            assert TOKEN + "" == TOKEN;
            TokenSeparates("", x);
          } else {
            VisitIsClean(fields[i].value, secrets, x);
          }
        }
    }
  }

  ghost predicate RedactsAll(secrets: seq<string>) {
    forall v: Json, x: string :: x in secrets && x != "" ==> Clean(Redact(v, secrets), x)
  }

  /** Secrets without brackets never survive in a string value of any input, exactly
      when none of them is part of the mark itself. */
  lemma RedactionIsComplete(secrets: seq<string>)
    requires forall x :: x in secrets ==> NoBracket(x)
    ensures RedactsAll(secrets) <==> forall x :: x in secrets && x != "" ==> !Occurs(MARK, x)
  {
    OrderedSecrets(secrets);
    if forall x :: x in secrets && x != "" ==> !Occurs(MARK, x) {
      forall v: Json, x: string | x in secrets && x != ""
        ensures Clean(Redact(v, secrets), x)
      {
        VisitIsClean(v, Ordered(secrets), x);
      }
    } else {
      var x :| x in secrets && x != "" && Occurs(MARK, x);
      SecretBecomesMark(Ordered(secrets), x);
      OccursTransitive(Fold(x, Ordered(secrets)), MARK, x);
      assert !Clean(Redact(Text(x), secrets), x);
    }
  }

  // ---------- Redacting twice ----------

  lemma {:induction false} FoldOfClean(s: string, secrets: seq<string>)
    requires NonEmpty(secrets) && forall x :: x in secrets ==> !Occurs(s, x)
    ensures Fold(s, secrets) == s
    decreases |secrets|
  {
    if secrets != [] {
      ReplaceOfAbsent(s, secrets[0]);
      FoldOfClean(s, secrets[1..]);
    }
  }

  lemma {:induction false} VisitOfVisited(v: Json, secrets: seq<string>)
    requires NonEmpty(secrets) && forall x :: x in secrets ==> NoBracket(x) && !Occurs(MARK, x)
    ensures Visit(Visit(v, secrets), secrets) == Visit(v, secrets)
  {
    var w := Visit(v, secrets);
    match v {
      case Text(text) =>
        forall x | x in secrets
          ensures !Occurs(Fold(text, secrets), x)
        {
          FoldLeavesNone(text, secrets, x);
        }
        FoldOfClean(Fold(text, secrets), secrets);
      case Other =>
      case List(items) =>
        forall i | 0 <= i < |items|
          ensures Visit(w, secrets).items[i] == w.items[i]
        {
          VisitOfVisited(items[i], secrets);
        }
        assert Visit(w, secrets).items == w.items;
      case Object(fields) =>
        forall i | 0 <= i < |fields|
          ensures Visit(w, secrets).fields[i] == w.fields[i]
        {
          if !IsSecretKey(fields[i].key) {
            VisitOfVisited(fields[i].value, secrets);
          }
        }
        assert Visit(w, secrets).fields == w.fields;
    }
  }

  // ---------- Each replacement adds a bracket ----------

  function Brackets(s: string): nat {
    if s == "" then 0 else (if s[0] == '[' then 1 else 0) + Brackets(s[1..])
  }

  lemma {:induction false} BracketsAppend(a: string, b: string)
    ensures Brackets(a + b) == Brackets(a) + Brackets(b)
  {
    if a == "" {
      assert a + b == b;
    } else {
      BracketsAppend(a[1..], b);
      assert (a + b)[1..] == a[1..] + b;
    }
  }

  lemma {:induction false} PlainHasNoBrackets(s: string)
    requires '[' !in s
    ensures Brackets(s) == 0
  {
    if s != "" {
      PlainHasNoBrackets(s[1..]);
    }
  }

  lemma TokenHasOneBracket()
    ensures Brackets(TOKEN) == 1
  {
    PlainHasNoBrackets(TOKEN[1..]);
  }

  lemma {:induction false} ReplaceAddsBrackets(s: string, x: string)
    requires x != "" && NoBracket(x)
    ensures Brackets(Replace(s, x)) >= Brackets(s) + if Occurs(s, x) then 1 else 0
    decreases |s|
  {
    if s == "" {
    } else if x <= s {
      ReplaceAddsBrackets(s[|x|..], x);
      TokenHasOneBracket();
      BracketsAppend(TOKEN, Replace(s[|x|..], x));
      PlainHasNoBrackets(x);
      BracketsAppend(x, s[|x|..]);
      assert x + s[|x|..] == s;
    } else {
      ReplaceAddsBrackets(s[1..], x);
      BracketsAppend([s[0]], Replace(s[1..], x));
      BracketsAppend([s[0]], s[1..]);
      assert [s[0]] + s[1..] == s;
    }
  }

  lemma {:induction false} FoldAddsBrackets(s: string, secrets: seq<string>, x: string)
    requires NonEmpty(secrets) && forall y :: y in secrets ==> NoBracket(y)
    ensures Brackets(Fold(s, secrets)) >= Brackets(s) + if x in secrets && Occurs(s, x) then 1 else 0
    decreases |secrets|
  {
    if secrets != [] {
      ReplaceAddsBrackets(s, secrets[0]);
      FoldAddsBrackets(Replace(s, secrets[0]), secrets[1..], x);
      if !Occurs(s, secrets[0]) {
        ReplaceOfAbsent(s, secrets[0]);
      }
    }
  }

  ghost predicate RedactsStably(secrets: seq<string>) {
    forall v: Json :: Redact(Redact(v, secrets), secrets) == Redact(v, secrets)
  }

  /** Under exactly the same condition redacting twice is redacting once. */
  lemma RedactionIsIdempotent(secrets: seq<string>)
    requires forall x :: x in secrets ==> NoBracket(x)
    ensures RedactsStably(secrets) <==> forall x :: x in secrets && x != "" ==> !Occurs(MARK, x)
  {
    OrderedSecrets(secrets);
    if forall x :: x in secrets && x != "" ==> !Occurs(MARK, x) {
      forall v: Json
        ensures Redact(Redact(v, secrets), secrets) == Redact(v, secrets)
      {
        VisitOfVisited(v, Ordered(secrets));
      }
    } else {
      var x :| x in secrets && x != "" && Occurs(MARK, x);
      var once := Fold(x, Ordered(secrets));
      SecretBecomesMark(Ordered(secrets), x);
      OccursTransitive(once, MARK, x);
      FoldAddsBrackets(once, Ordered(secrets), x);
      assert Redact(Redact(Text(x), secrets), secrets) != Redact(Text(x), secrets);
    }
  }

  // ---------- What is cut out, and nothing else ----------

  /** `pieces.join(separator)` */
  function JoinWith(pieces: seq<string>, separator: string): string {
    if pieces == [] then ""
    else if |pieces| == 1 then pieces[0]
    else pieces[0] + separator + JoinWith(pieces[1..], separator)
  }

  /** The pieces of a text between the occurrences of x. */
  ghost predicate Pieces(s: string, x: string, pieces: seq<string>) {
    && pieces != [] && s == JoinWith(pieces, x)
    && forall i :: 0 <= i < |pieces| ==> !Occurs(pieces[i], x)
  }

  lemma JoinLonger(first: string, pieces: seq<string>, separator: string)
    requires pieces != []
    ensures JoinWith([first] + pieces, separator) == first + separator + JoinWith(pieces, separator)
  {
    assert ([first] + pieces)[1..] == pieces;
  }

  lemma JoinLonger1(c: char, pieces: seq<string>, separator: string)
    requires pieces != []
    ensures JoinWith([[c] + pieces[0]] + pieces[1..], separator) == [c] + JoinWith(pieces, separator)
  {
    var longer := [[c] + pieces[0]] + pieces[1..];
    assert longer[1..] == pieces[1..];
    if |pieces| > 1 {
      assert [c] + pieces[0] + separator + JoinWith(pieces[1..], separator)
          == [c] + (pieces[0] + separator + JoinWith(pieces[1..], separator));
    }
  }

  /** Replacing cuts a text at occurrences of the secret and puts the token in their
      place: everything between them stays. */
  lemma ReplaceKeepsTheRest(s: string, x: string)
    requires x != ""
    ensures exists pieces: seq<string> :: Pieces(s, x, pieces) && Replace(s, x) == JoinWith(pieces, TOKEN)
  {
    var pieces := CutPieces(s, x);
  }

  lemma {:induction false} CutPieces(s: string, x: string) returns (pieces: seq<string>)
    requires x != ""
    ensures Pieces(s, x, pieces) && Replace(s, x) == JoinWith(pieces, TOKEN)
    ensures pieces != [] && pieces[0] <= s
    decreases |s|
  {
    hide Pieces, JoinWith;
    if s == "" {
      pieces := [""];
      NoPieces(x);
    } else if x <= s {
      var later := CutPieces(s[|x|..], x);
      pieces := [""] + later;
      PiecesAfterCut(s, x, later);
    } else {
      var later := CutPieces(s[1..], x);
      pieces := [[s[0]] + later[0]] + later[1..];
      PiecesAfterChar(s, x, later);
    }
  }

  lemma NoPieces(x: string)
    requires x != ""
    ensures Pieces("", x, [""]) && JoinWith([""], TOKEN) == ""
  {
  }

  lemma PiecesAfterCut(s: string, x: string, later: seq<string>)
    requires x != "" && x <= s && Pieces(s[|x|..], x, later)
    ensures Pieces(s, x, [""] + later)
    ensures JoinWith([""] + later, TOKEN) == TOKEN + JoinWith(later, TOKEN)
  {
    hide JoinWith;
    JoinLonger("", later, x);
    JoinLonger("", later, TOKEN);
    assert s == x + s[|x|..];
  }

  lemma PiecesAfterChar(s: string, x: string, later: seq<string>)
    requires s != "" && x != "" && !(x <= s) && later != [] && Pieces(s[1..], x, later) && later[0] <= s[1..]
    ensures var pieces := [[s[0]] + later[0]] + later[1..];
            && Pieces(s, x, pieces) && pieces[0] <= s
            && JoinWith(pieces, TOKEN) == [s[0]] + JoinWith(later, TOKEN)
  {
    hide JoinWith;
    JoinLonger1(s[0], later, x);
    JoinLonger1(s[0], later, TOKEN);
    var first := [s[0]] + later[0];
    assert s == [s[0]] + s[1..] && first <= s && first[1..] == later[0];
    assert !(x <= first);
    assert !Occurs(first, x);
    assert forall i :: 1 <= i < |later| ==> later[1..][i - 1] == later[i];
  }

  lemma {:induction false} FoldOfAbsent(s: string, secrets: seq<string>)
    requires NonEmpty(secrets) && forall i :: 0 <= i < |secrets| ==> !Occurs(s, secrets[i])
    ensures Fold(s, secrets) == s
    decreases |secrets|
  {
    if secrets != [] {
      ReplaceOfAbsent(s, secrets[0]);
      FoldOfAbsent(s, secrets[1..]);
    }
  }

  // ---------- Which keys are secret ----------

  function Upper(c: char): char {
    if 'a' <= c <= 'z' then c - 'a' + 'A' else c
  }

  /** The key has the word at i, in letters of either case. */
  predicate Spells(key: string, i: nat, word: string) {
    i + |word| <= |key| && forall j :: 0 <= j < |word| ==> key[i + j] == word[j] || key[i + j] == Upper(word[j])
  }

  predicate SpellsApiKey(key: string, i: nat) {
    && Spells(key, i, "api")
    && (Spells(key, i + 3, "key")
        || (i + 3 < |key| && key[i + 3] !in {'\n', '\r', '\U{2028}', '\U{2029}'} && Spells(key, i + 4, "key")))
  }

  /** The key names a secret anywhere. */
  ghost predicate NamesSecret(key: string) {
    exists i: nat :: Spells(key, i, "token") || Spells(key, i, "secret") || Spells(key, i, "password") || SpellsApiKey(key, i)
  }

  lemma {:induction false} OccursAt(s: string, x: string)
    requires x != ""
    ensures Occurs(s, x) <==> exists i: nat :: i <= |s| && x <= s[i..]
  {
    if Occurs(s, x) && !(x <= s) {
      OccursAt(s[1..], x);
      var i: nat :| i <= |s[1..]| && x <= s[1..][i..];
      assert s[1..][i..] == s[i + 1..];
    } else if x <= s {
      assert s[0..] == s;
    }
    forall i: nat | i <= |s| && x <= s[i..]
      ensures Occurs(s, x)
    {
      OccursInTail(s, i, x);
    }
  }

  lemma {:induction false} ApiKeyShowsAt(s: string)
    ensures ShowsApiKey(s) <==> exists i: nat :: i <= |s| && ApiKeyAt(s[i..])
  {
    assert s[0..] == s;
    if s != "" {
      ApiKeyShowsAt(s[1..]);
      if i: nat :| i <= |s[1..]| && ApiKeyAt(s[1..][i..]) {
        assert s[1..][i..] == s[i + 1..];
      }
      if i: nat :| i <= |s| && ApiKeyAt(s[i..]) {
        assert i > 0 ==> s[1..][i - 1..] == s[i..];
      }
    }
  }

  ghost predicate IsWord(word: string) {
    forall j :: 0 <= j < |word| ==> 'a' <= word[j] <= 'z'
  }

  lemma LowerIsEither(c: char, letter: char)
    requires 'a' <= letter <= 'z'
    ensures Lower(c) == letter <==> c == letter || c == Upper(letter)
  {
    if 'A' <= c <= 'Z' {
      assert Lower(c) as int == c as int + 32 && Upper(letter) as int == letter as int - 32;
      assert Lower(c) == letter ==> c as int == Upper(letter) as int;
    }
  }

  lemma SpellsExactly(key: string, i: nat, word: string)
    requires IsWord(word)
    ensures Spells(key, i, word) <==> i <= |key| && word <= LowerCase(key)[i..]
  {
    var k := LowerCase(key);
    if i + |word| <= |key| {
      forall j | 0 <= j < |word|
        ensures k[i..][j] == word[j] <==> key[i + j] == word[j] || key[i + j] == Upper(word[j])
      {
        assert k[i..][j] == Lower(key[i + j]);
        LowerIsEither(key[i + j], word[j]);
      }
      assert word <= k[i..] <==> forall j :: 0 <= j < |word| ==> k[i..][j] == word[j];
    }
  }

  lemma ApiKeyExactly(key: string, i: nat)
    requires i <= |key|
    ensures ApiKeyAt(LowerCase(key)[i..]) <==> SpellsApiKey(key, i)
  {
    var k := LowerCase(key);
    SpellsExactly(key, i, "api");
    SpellsExactly(key, i + 3, "key");
    SpellsExactly(key, i + 4, "key");
    if i + 3 <= |key| {
      assert k[i..][3..] == k[i + 3..];
    }
    if i + 4 <= |key| {
      assert k[i..][4..] == k[i + 4..] && k[i..][3] == Lower(key[i + 3]);
      assert IsLineEnd(Lower(key[i + 3])) <==> IsLineEnd(key[i + 3]);
    }
  }

  /** A key is treated as secret exactly if it spells one of the words somewhere, in
      letters of either case; between "api" and "key" may stand one character that
      ends no line. */
  lemma SecretKeysExactly(key: string)
    ensures IsSecretKey(key) <==> NamesSecret(key)
  {
    hide Occurs, ShowsApiKey, ApiKeyAt, Spells, SpellsApiKey, LowerCase;
    var k := LowerCase(key);
    assert |k| == |key| by {
      LowerCaseKeepsLength(key);
    }
    OccursAt(k, "token");
    OccursAt(k, "secret");
    OccursAt(k, "password");
    ApiKeyShowsAt(k);
    forall i: nat
      ensures Spells(key, i, "token") <==> i <= |k| && "token" <= k[i..]
      ensures Spells(key, i, "secret") <==> i <= |k| && "secret" <= k[i..]
      ensures Spells(key, i, "password") <==> i <= |k| && "password" <= k[i..]
      ensures SpellsApiKey(key, i) <==> i <= |k| && ApiKeyAt(k[i..])
    {
      SpellsExactly(key, i, "token");
      SpellsExactly(key, i, "secret");
      SpellsExactly(key, i, "password");
      if i <= |k| {
        ApiKeyExactly(key, i);
      } else {
        ApiKeyIsInside(key, i);
      }
    }
  }

  lemma LowerCaseKeepsLength(key: string)
    ensures |LowerCase(key)| == |key|
  {
  }

  lemma ApiKeyIsInside(key: string, i: nat)
    requires i > |key|
    ensures !SpellsApiKey(key, i)
  {
  }

  // ---------- The tree ----------

  /** The value that a path of positions leads to. */
  function ValueAt(v: Json, path: seq<nat>): Option<Json>
    decreases |path|
  {
    if path == [] then Some(v)
    else if v.List? && path[0] < |v.items| then ValueAt(v.items[path[0]], path[1..])
    else if v.Object? && path[0] < |v.fields| then ValueAt(v.fields[path[0]].value, path[1..])
    else None
  }

  /** Some field on the path has a key that names a secret. */
  ghost predicate UnderSecret(v: Json, path: seq<nat>)
    decreases |path|
  {
    && path != []
    && if v.List? && path[0] < |v.items| then UnderSecret(v.items[path[0]], path[1..])
       else v.Object? && path[0] < |v.fields|
            && (NamesSecret(v.fields[path[0]].key) || UnderSecret(v.fields[path[0]].value, path[1..]))
  }

  /** Every secret cut out of one string, longest first. */
  function RedactString(s: string, secrets: seq<string>): string {
    OrderedSecrets(secrets);
    Fold(s, Ordered(secrets))
  }

  /** A text with the secrets cut out, a list of as many items, or an object with the
      same keys in which exactly the values of keys that name a secret are dropped. */
  ghost predicate RedactedNode(v: Json, w: Json, secrets: seq<string>) {
    match v
    case Text(text) =>
      && w == Text(RedactString(text, secrets))
      && ((forall x :: x in secrets && x != "" ==> !Occurs(text, x)) ==> w == v)
    case Other => w == Other
    case List(items) => w.List? && |w.items| == |items|
    case Object(fields) =>
      && w.Object? && |w.fields| == |fields|
      && forall i :: 0 <= i < |fields| ==>
           w.fields[i].key == fields[i].key && (NamesSecret(fields[i].key) ==> w.fields[i].value == Text("[REDACTED]"))
  }

  lemma VisitedNode(v: Json, secrets: seq<string>)
    ensures RedactedNode(v, Redact(v, secrets), secrets)
  {
    hide IsSecretKey, NamesSecret;
    OrderedSecrets(secrets);
    match v {
      case Text(text) =>
        if forall x :: x in secrets && x != "" ==> !Occurs(text, x) {
          FoldOfAbsent(text, Ordered(secrets));
        }
      case Object(fields) =>
        forall i | 0 <= i < |fields|
          ensures IsSecretKey(fields[i].key) <==> NamesSecret(fields[i].key)
        {
          SecretKeysExactly(fields[i].key);
        }
        assert TOKEN == "[REDACTED]";
      case _ =>
    }
  }

  /** Redaction keeps the tree: every place that is not under a key that names a secret
      is there afterwards, with the same shape and the same keys, a text without secrets
      is untouched, and exactly the values of keys that name a secret are dropped. */
  lemma {:induction false} RedactionKeepsTheTree(v: Json, secrets: seq<string>, path: seq<nat>)
    requires ValueAt(v, path).Some? && !UnderSecret(v, path)
    ensures var w := Redact(v, secrets);
            ValueAt(w, path).Some? && RedactedNode(ValueAt(v, path).value, ValueAt(w, path).value, secrets)
    decreases |path|
  {
    hide RedactedNode, NamesSecret, IsSecretKey;
    VisitedNode(v, secrets);
    if path != [] {
      var i := path[0];
      if v.List? {
        RedactionKeepsTheTree(v.items[i], secrets, path[1..]);
      } else {
        SecretKeysExactly(v.fields[i].key);
        RedactionKeepsTheTree(v.fields[i].value, secrets, path[1..]);
      }
    }
  }
}
