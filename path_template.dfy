/** The path templater of the grabber: `str.format` over a template whose named
    fields are the `strftime` codes %Y %y %m %d %H %M %S %f of one instant, and
    the POSIX `dirname` used to find the directory a save path lives in. */
module PathTemplate {

  /** A calendar instant as `datetime` holds it. */
  datatype Timestamp = Timestamp(year: int, month: int, day: int,
                                 hour: int, minute: int, second: int, microsecond: int)

  predicate IsLeapYear(y: int) {
    y % 4 == 0 && (y % 100 != 0 || y % 400 == 0)
  }

  function DaysInMonth(y: int, m: int): int
    requires 1 <= m <= 12
  {
    if m == 2 then (if IsLeapYear(y) then 29 else 28)
    else if m == 4 || m == 6 || m == 9 || m == 11 then 30
    else 31
  }

  /** The instants `datetime` can hold, restricted to four-digit years, where
      `%Y` always renders as exactly four digits. */
  predicate ValidTimestamp(t: Timestamp) {
    1000 <= t.year <= 9999 && 1 <= t.month <= 12 && 1 <= t.day <= DaysInMonth(t.year, t.month) &&
    0 <= t.hour < 24 && 0 <= t.minute < 60 && 0 <= t.second < 60 &&
    0 <= t.microsecond < 1000000
  }

  type Instant = t: Timestamp | ValidTimestamp(t) witness Timestamp(2000, 1, 1, 0, 0, 0, 0)

  // ---------------------------------------------------------------------------
  // Fixed-width decimal fields

  function Pow10(n: nat): (p: nat)
    ensures p >= 1
  {
    if n == 0 then 1 else 10 * Pow10(n - 1)
  }

  predicate IsDigit(c: char) {
    '0' <= c <= '9'
  }

  /** Whether `s` is made of decimal digits only. */
  predicate DigitsOnly(s: string) {
    s == [] || (IsDigit(s[0]) && DigitsOnly(s[1..]))
  }

  lemma {:induction false} DigitsOnlyAppend(a: string, b: string)
    ensures DigitsOnly(a + b) <==> DigitsOnly(a) && DigitsOnly(b)
    decreases |a|
  {
    if a == [] {
      assert a + b == b;
    } else {
      assert (a + b)[1..] == a[1..] + b;
      DigitsOnlyAppend(a[1..], b);
    }
  }

  function DigitChar(d: nat): (c: char)
    requires d < 10
    ensures IsDigit(c) && c as int - '0' as int == d
  {
    (d + '0' as int) as char
  }

  /** `n` written in decimal in exactly `width` digits, zero-padded on the left. */
  function ZeroPad(n: nat, width: nat): (s: string)
    requires n < Pow10(width)
    ensures |s| == width
  {
    if width == 0 then []
    else
      assert n / 10 < Pow10(width - 1);
      ZeroPad(n / 10, width - 1) + [DigitChar(n % 10)]
  }

  /** The number a string of decimal digits denotes. */
  function DecimalValue(s: string): int {
    if s == [] then 0
    else DecimalValue(s[..|s| - 1]) * 10 + (s[|s| - 1] as int - '0' as int)
  }

  /** A zero-padded field is made of digits, and reading it back gives the
      number that was written. */
  lemma {:induction false} DecimalOfZeroPad(n: nat, width: nat)
    requires n < Pow10(width)
    ensures DigitsOnly(ZeroPad(n, width))
    ensures DecimalValue(ZeroPad(n, width)) == n
  {
    if width > 0 {
      var s := ZeroPad(n, width);
      assert n / 10 < Pow10(width - 1);
      assert s[..|s| - 1] == ZeroPad(n / 10, width - 1);
      DecimalOfZeroPad(n / 10, width - 1);
      var d := [DigitChar(n % 10)];
      assert DigitsOnly(d) by { assert d[1..] == []; }
      DigitsOnlyAppend(ZeroPad(n / 10, width - 1), d);
    }
  }

  // ---------------------------------------------------------------------------
  // The named fields handed to `str.format`

  /** The keyword arguments `format_path` passes, one per strftime code, are
      each named by a single letter. */
  predicate IsCode(c: char) {
    c == 'Y' || c == 'y' || c == 'm' || c == 'd' || c == 'H' || c == 'M' || c == 'S' || c == 'f'
  }

  predicate IsToken(name: string) {
    |name| == 1 && IsCode(name[0])
  }

  /** The width strftime gives each code. */
  function TokenWidth(name: string): nat
    requires IsToken(name)
  {
    if name[0] == 'Y' then 4 else if name[0] == 'f' then 6 else 2
  }

  /** The component of `now` that each code shows. */
  function Component(name: string, now: Instant): (n: nat)
    requires IsToken(name)
    ensures n < Pow10(TokenWidth(name))
  {
    assert Pow10(2) == 100 && Pow10(4) == 10000 && Pow10(6) == 1000000;
    match name[0]
    case 'Y' => now.year
    case 'y' => now.year % 100
    case 'm' => now.month
    case 'd' => now.day
    case 'H' => now.hour
    case 'M' => now.minute
    case 'S' => now.second
    case _ => now.microsecond
  }

  /** The value strftime gives each code for the instant `now`: the
      component, zero-padded to the code's width. */
  function TokenValue(name: string, now: Instant): (s: string)
    requires IsToken(name)
    ensures |s| == TokenWidth(name)
  {
    ZeroPad(Component(name, now), TokenWidth(name))
  }

  /** Every field is a string of digits that reads back as the component of
      the instant it was rendered from. */
  lemma TokenDenotes(name: string, now: Instant)
    requires IsToken(name)
    ensures DigitsOnly(TokenValue(name, now))
    ensures DecimalValue(TokenValue(name, now)) == Component(name, now)
  {
    DecimalOfZeroPad(Component(name, now), TokenWidth(name));
  }

  /** Two instants that render every field alike are the same instant: the
      fields of a rendered path determine the one instant they came from. */
  lemma TokensInjective(a: Instant, b: Instant)
    requires forall name | IsToken(name) :: TokenValue(name, a) == TokenValue(name, b)
    ensures a == b
  {
    assert a.year == b.year by { ComponentAgrees("Y", a, b); }
    assert a.month == b.month by { ComponentAgrees("m", a, b); }
    assert a.day == b.day by { ComponentAgrees("d", a, b); }
    assert a.hour == b.hour by { ComponentAgrees("H", a, b); }
    assert a.minute == b.minute by { ComponentAgrees("M", a, b); }
    assert a.second == b.second by { ComponentAgrees("S", a, b); }
    assert a.microsecond == b.microsecond by { ComponentAgrees("f", a, b); }
  }

  lemma ComponentAgrees(name: string, a: Instant, b: Instant)
    requires IsToken(name) && TokenValue(name, a) == TokenValue(name, b)
    ensures Component(name, a) == Component(name, b)
  {
    TokenDenotes(name, a);
    TokenDenotes(name, b);
  }

  // ---------------------------------------------------------------------------
  // str.format

  /** The ways `str.format` fails on a template when given only the eight
      keyword arguments above. */
  datatype FormatError =
    | SingleClose            // ValueError: a `}` that is not part of `}}`
    | SingleOpen             // ValueError: a `{` as the last character
    | UnclosedField          // ValueError: a field with no closing `}`
    | PositionalField        // IndexError: `{}` or `{0}`, no positional arguments
    | MissingKey(name: string)     // KeyError: a name outside the eight codes
    | Unsupported(field: string)   // format spec, conversion, attribute, index or nested field

  datatype Result<T> = Success(value: T) | Failure(error: FormatError)

  /** Characters that start the parts of a field this model does not cover. */
  predicate IsFieldSyntax(c: char) {
    c == '{' || c == ':' || c == '!' || c == '.' || c == '['
  }

  /** Whether a field holds any of the characters above. */
  predicate HasFieldSyntax(s: string) {
    s != [] && (IsFieldSyntax(s[0]) || HasFieldSyntax(s[1..]))
  }

  /** What the field `{name}` renders to. A code name holds neither field
      syntax nor digits, so looking it up first decides nothing differently. */
  function Lookup(name: string, now: Instant): (r: Result<string>)
    ensures r.Success? <==> IsToken(name)
    ensures r.Success? ==> r.value == TokenValue(name, now)
    ensures !IsToken(name) && HasFieldSyntax(name) ==> r == Failure(Unsupported(name))
    ensures !IsToken(name) && !HasFieldSyntax(name) && DigitsOnly(name) ==> r == Failure(PositionalField)
    ensures !IsToken(name) && !HasFieldSyntax(name) && !DigitsOnly(name) ==> r == Failure(MissingKey(name))
  {
    if IsToken(name) then Success(TokenValue(name, now))
    else if HasFieldSyntax(name) then Failure(Unsupported(name))
    else if DigitsOnly(name) then Failure(PositionalField)
    else Failure(MissingKey(name))
  }

  /** Index of the first `}` at or after `i`, or `|t|` when there is none. */
  function CloseBrace(t: string, i: nat): (e: nat)
    requires i <= |t|
    ensures i <= e <= |t|
    ensures e < |t| ==> t[e] == '}'
    ensures forall k :: i <= k < e ==> t[k] != '}'
    decreases |t| - i
  {
    if i == |t| || t[i] == '}' then i else CloseBrace(t, i + 1)
  }

  function Prepend(s: string, r: Result<string>): Result<string> {
    match r
    case Success(v) => Success(s + v)
    case Failure(e) => Failure(e)
  }

  /** `template.format(Y=…, y=…, m=…, d=…, H=…, M=…, S=…, f=…)` with every
      field taken from the single instant `now`. The template is read left to
      right and the first problem met is the one reported. */
  function Format(t: string, now: Instant): (r: Result<string>)
    ensures r.Success? ==> |r.value| <= 2 * |t|
    decreases |t|
  {
    if t == [] then Success([])
    else if |t| >= 2 && t[0] == '{' && t[1] == '{' then Prepend("{", Format(t[2..], now))
    else if |t| >= 2 && t[0] == '}' && t[1] == '}' then Prepend("}", Format(t[2..], now))
    else if t[0] == '}' then Failure(SingleClose)
    else if t[0] == '{' then
      if |t| == 1 then Failure(SingleOpen)
      else
        var e := CloseBrace(t, 1);
        if e == |t| then Failure(UnclosedField)
        else
          match Lookup(t[1..e], now)
          case Failure(err) => Failure(err)
          case Success(v) => Prepend(v, Format(t[e + 1..], now))
    else Prepend([t[0]], Format(t[1..], now))
  }

  // ---------------------------------------------------------------------------
  // Templates as sequences of pieces: the reference reading of Format

  /** A template is literal characters and named fields. */
  datatype Piece = Char(c: char) | Field(name: string)

  predicate AllTokens(ps: seq<Piece>) {
    forall i :: 0 <= i < |ps| ==> ps[i].Field? ==> IsToken(ps[i].name)
  }

  /** How a piece is written in a template (braces in text are doubled). */
  function Spelling(p: Piece): string {
    match p
    case Char(c) => if c == '{' || c == '}' then [c, c] else [c]
    case Field(name) => "{" + name + "}"
  }

  function Template(ps: seq<Piece>): string {
    if ps == [] then [] else Spelling(ps[0]) + Template(ps[1..])
  }

  /** What a piece stands for at the instant `now`. */
  function Meaning(p: Piece, now: Instant): string
    requires p.Field? ==> IsToken(p.name)
  {
    match p
    case Char(c) => [c]
    case Field(name) => TokenValue(name, now)
  }

  function Expand(ps: seq<Piece>, now: Instant): string
    requires AllTokens(ps)
  {
    if ps == [] then [] else Meaning(ps[0], now) + Expand(ps[1..], now)
  }

  /** Formatting a template whose first piece is `p` yields what `p` means,
      followed by whatever formatting the rest yields. */
  lemma FormatPiece(p: Piece, rest: string, now: Instant)
    requires p.Field? ==> IsToken(p.name)
    ensures Format(Spelling(p) + rest, now) == Prepend(Meaning(p, now), Format(rest, now))
  {
    var t := Spelling(p) + rest;
    match p
    case Char(c) =>
      if c == '{' || c == '}' {
        assert t[2..] == rest;
      } else {
        assert t[1..] == rest;
      }
    case Field(name) =>
      assert |name| == 1;
      assert t[2] == '}';
      assert CloseBrace(t, 1) == 2;
      assert t[1..2] == name;
      assert t[3..] == rest;
  }

  lemma PrependAssoc(a: string, b: string, r: Result<string>)
    ensures Prepend(a, Prepend(b, r)) == Prepend(a + b, r)
  {
    match r
    case Success(v) => assert a + (b + v) == (a + b) + v;
    case Failure(_) =>
  }

  /** Text written as the template of `ps` is formatted to the meaning of
      `ps`, and what follows it is formatted independently. */
  lemma {:induction false} FormatAfterTemplate(ps: seq<Piece>, rest: string, now: Instant)
    requires AllTokens(ps)
    ensures Format(Template(ps) + rest, now) == Prepend(Expand(ps, now), Format(rest, now))
  {
    if ps == [] {
      assert Template(ps) + rest == rest;
      match Format(rest, now)
      case Success(v) => assert [] + v == v;
      case Failure(_) =>
    } else {
      var tail := Template(ps[1..]) + rest;
      assert Template(ps) + rest == Spelling(ps[0]) + tail;
      FormatPiece(ps[0], tail, now);
      FormatAfterTemplate(ps[1..], rest, now);
      PrependAssoc(Meaning(ps[0], now), Expand(ps[1..], now), Format(rest, now));
    }
  }

  /** Soundness: the template of pieces naming only the eight codes formats
      to the pieces' meaning, every field from the same instant. */
  lemma FormatTemplate(ps: seq<Piece>, now: Instant)
    requires AllTokens(ps)
    ensures Format(Template(ps), now) == Success(Expand(ps, now))
  {
    FormatAfterTemplate(ps, [], now);
    assert Template(ps) + [] == Template(ps);
    assert Expand(ps, now) + [] == Expand(ps, now);
  }

  /** Completeness: every template `Format` accepts is the template of some
      pieces naming only the eight codes, and is formatted to their meaning. */
  lemma {:induction false} FormatParses(t: string, now: Instant) returns (ps: seq<Piece>)
    requires Format(t, now).Success?
    ensures AllTokens(ps) && Template(ps) == t
    ensures Format(t, now).value == Expand(ps, now)
    decreases |t|
  {
    if t == [] {
      ps := [];
    } else {
      var p: Piece, k: nat;
      if |t| >= 2 && t[0] == '{' && t[1] == '{' {
        p, k := Char('{'), 2;
      } else if |t| >= 2 && t[0] == '}' && t[1] == '}' {
        p, k := Char('}'), 2;
      } else if t[0] == '{' {
        var e := CloseBrace(t, 1);
        p, k := Field(t[1..e]), e + 1;
      } else {
        p, k := Char(t[0]), 1;
      }
      assert p.Field? ==> IsToken(p.name);
      assert t == Spelling(p) + t[k..];
      assert Format(t, now).value == Meaning(p, now) + Format(t[k..], now).value;
      var rest := FormatParses(t[k..], now);
      ps := [p] + rest;
      assert ps[0] == p && ps[1..] == rest;
    }
  }

  /** `Format` succeeds exactly on the templates made of literal text and
      fields naming the eight codes. */
  lemma FormatSucceedsIff(t: string, now: Instant)
    ensures Format(t, now).Success? <==> exists ps :: AllTokens(ps) && Template(ps) == t
  {
    if Format(t, now).Success? {
      var ps := FormatParses(t, now);
    }
    if exists ps :: AllTokens(ps) && Template(ps) == t {
      var ps :| AllTokens(ps) && Template(ps) == t;
      FormatTemplate(ps, now);
    }
  }

  /** A template that formats cleanly may be followed by any text: the result
      is its rendering followed by that text's. */
  lemma FormatAppend(a: string, b: string, now: Instant)
    requires Format(a, now).Success?
    ensures Format(a + b, now) == Prepend(Format(a, now).value, Format(b, now))
  {
    var ps := FormatParses(a, now);
    FormatAfterTemplate(ps, b, now);
  }

  /** Two templates that format cleanly format cleanly side by side. */
  lemma FormatJoin(a: string, b: string, now: Instant)
    requires Format(a, now).Success? && Format(b, now).Success?
    ensures Format(a + b, now).Success?
    ensures Format(a + b, now).value == Format(a, now).value + Format(b, now).value
  {
    FormatAppend(a, b, now);
  }

  /** How the field `name` is written in a template. */
  function Braced(name: string): string {
    "{" + name + "}"
  }

  /** A lone field naming a code renders as that code's value. */
  lemma FormatField(name: string, now: Instant)
    requires IsToken(name)
    ensures Format(Braced(name), now).Success?
    ensures Format(Braced(name), now).value == TokenValue(name, now)
  {
    FormatPiece(Field(name), [], now);
    assert Spelling(Field(name)) + [] == Braced(name);
    assert TokenValue(name, now) + [] == TokenValue(name, now);
  }

  /** Whether formatting succeeds does not depend on the instant. */
  lemma FormatSuccessIndependent(t: string, a: Instant, b: Instant)
    requires Format(t, a).Success?
    ensures Format(t, b).Success?
  {
    var ps := FormatParses(t, a);
    FormatTemplate(ps, b);
  }

  /** A template without braces is returned unchanged. */
  lemma {:induction false} FormatNoBraces(t: string, now: Instant)
    requires forall i :: 0 <= i < |t| ==> t[i] != '{' && t[i] != '}'
    ensures Format(t, now) == Success(t)
    decreases |t|
  {
    if t != [] {
      FormatNoBraces(t[1..], now);
      assert [t[0]] + t[1..] == t;
    }
  }

  /** A name outside the eight codes is an error, never passed through. */
  lemma FormatUnknownName(name: string, rest: string, now: Instant)
    requires name != [] && !IsToken(name)
    requires !HasFieldSyntax(name) && !DigitsOnly(name)
    requires forall i :: 0 <= i < |name| ==> name[i] != '}'
    ensures Format("{" + name + "}" + rest, now) == Failure(MissingKey(name))
  {
    var t := "{" + name + "}" + rest;
    assert t[1 + |name|] == '}';
    assert forall k :: 1 <= k < 1 + |name| ==> t[k] == name[k - 1];
    assert CloseBrace(t, 1) == 1 + |name|;
    assert t[1..1 + |name|] == name;
  }

  /** A `/` in the template of `ps` appears in their meaning, and one that is
      not the first character of the template is not the first of the meaning. */
  lemma {:induction false} ExpandKeepsSlash(ps: seq<Piece>, j: nat, now: Instant) returns (i: nat)
    requires AllTokens(ps)
    requires j < |Template(ps)| && Template(ps)[j] == '/'
    ensures i < |Expand(ps, now)| && Expand(ps, now)[i] == '/'
    ensures j > 0 ==> i > 0
    decreases |ps|
  {
    var sp := Spelling(ps[0]);
    var m := Meaning(ps[0], now);
    assert Template(ps) == sp + Template(ps[1..]);
    assert Expand(ps, now) == m + Expand(ps[1..], now);
    if j < |sp| {
      assert sp[j] == '/';
      assert ps[0] == Char('/');
      i := 0;
    } else {
      var i' := ExpandKeepsSlash(ps[1..], j - |sp|, now);
      assert |m| > 0;
      i := |m| + i';
    }
  }

  /** A `/` in the template survives formatting, and one that is not the
      first character of the template is not the first of the result. */
  lemma FormatKeepsSlash(t: string, j: nat, now: Instant) returns (i: nat)
    requires Format(t, now).Success?
    requires j < |t| && t[j] == '/'
    ensures i < |Format(t, now).value| && Format(t, now).value[i] == '/'
    ensures j > 0 ==> i > 0
  {
    var ps := FormatParses(t, now);
    var out := Format(t, now).value;
    assert Template(ps)[j] == '/';
    i := ExpandKeepsSlash(ps, j, now);
    assert out == Expand(ps, now);
  }


  // ---------------------------------------------------------------------------
  // posixpath.dirname

  /** One past the index of the last `/` in `p`, or 0 when there is none. */
  function LastSlashEnd(p: string): (n: nat)
    ensures n <= |p|
    ensures n > 0 ==> p[n - 1] == '/'
    ensures forall k :: n <= k < |p| ==> p[k] != '/'
  {
    if p == [] then 0
    else if p[|p| - 1] == '/' then |p|
    else LastSlashEnd(p[..|p| - 1])
  }

  predicate AllSlashes(s: string) {
    forall i :: 0 <= i < |s| ==> s[i] == '/'
  }

  /** `s` without its trailing slashes. */
  function StripTrailingSlashes(s: string): (r: string)
    ensures |r| <= |s| && r == s[..|r|]
    ensures AllSlashes(s[|r|..])
    ensures r == [] || r[|r| - 1] != '/'
  {
    if s == [] || s[|s| - 1] != '/' then s
    else StripTrailingSlashes(s[..|s| - 1])
  }

  /** The directory part of `p`: everything before its last `/`, without
      trailing slashes unless it is made of slashes only. */
  function Dirname(p: string): (d: string)
    ensures |d| <= |p| && d == p[..|d|]
    ensures d == [] <==> forall k :: 0 <= k < |p| ==> p[k] != '/'
  {
    var head := p[..LastSlashEnd(p)];
    if head != [] && !AllSlashes(head) then
      StripTrailingSlashes(head)
    else head
  }

  /** The final component of `p`: everything after its last `/`. */
  function Basename(p: string): string {
    p[LastSlashEnd(p)..]
  }

  /** A path is its directory part, then a run of slashes, then its final
      component. The run is empty when the path has no slash, or when the
      directory part is itself made of slashes only (`/a` has directory `/`);
      otherwise the directory part does not end in a slash. */
  lemma DirnameSplits(p: string)
    ensures Dirname(p) == p[..|Dirname(p)|]
    ensures AllSlashes(p[|Dirname(p)|..LastSlashEnd(p)])
    ensures p == p[..LastSlashEnd(p)] + Basename(p)
    ensures forall k :: 0 <= k < |Basename(p)| ==> Basename(p)[k] != '/'
    ensures Dirname(p) == [] <==> LastSlashEnd(p) == 0
    ensures Dirname(p) != [] && Dirname(p)[|Dirname(p)| - 1] == '/' ==> AllSlashes(Dirname(p))
  {
    var n := LastSlashEnd(p);
    var head := p[..n];
    var d := Dirname(p);
    assert p == head + Basename(p);
    if head == [] {
      assert d == [];
    } else if AllSlashes(head) {
      assert d == head;
      assert p[|d|..n] == [];
    } else {
      var r := StripTrailingSlashes(head);
      assert d == r;
      assert r != [];
      assert p[..|d|] == head[..|r|];
      assert p[|d|..n] == head[|r|..];
    }
  }

  /** The directory of `dir + "/" + file` is `dir` when `file` holds no slash
      and `dir` is a non-empty path not ending in one. */
  lemma DirnameOfJoin(dir: string, file: string)
    requires dir != [] && dir[|dir| - 1] != '/'
    requires forall k :: 0 <= k < |file| ==> file[k] != '/'
    ensures Dirname(dir + "/" + file) == dir
  {
    var p := dir + "/" + file;
    var n := LastSlashEnd(p);
    assert p[|dir|] == '/';
    assert n >= |dir| + 1;
    assert n <= |dir| + 1 by {
      assert forall k :: |dir| + 1 <= k < |p| ==> p[k] == file[k - |dir| - 1];
    }
    var head := p[..n];
    assert head == dir + "/";
    assert !AllSlashes(head) by { assert head[|dir| - 1] != '/'; }
    assert head[..|head| - 1] == dir;
  }

  /** The directory part of a path is empty only when the path has no slash
      past its first character. */
  lemma DirnameNonEmpty(p: string, i: nat)
    requires 0 < i < |p| && p[i] == '/'
    ensures Dirname(p) != []
  {
    var n := LastSlashEnd(p);
    assert n >= i + 1;
    var head := p[..n];
  }
}
