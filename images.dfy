/** Text helpers: lower-casing, the whitespace-to-dash file-name slug used for
    card images, the image path builders, and decimal rendering of numbers for
    error messages. */
module Images {

  /** A character of the JavaScript regular-expression class `\s`. */
  predicate IsWhitespace(c: char) {
    c == ' ' || c == '\t' || c == '\n' || c == '\r' || c == '\U{000B}' || c == '\U{000C}'
    || c == '\U{00A0}' || c == '\U{1680}' || ('\U{2000}' <= c <= '\U{200A}')
    || c == '\U{2028}' || c == '\U{2029}' || c == '\U{202F}' || c == '\U{205F}'
    || c == '\U{3000}' || c == '\U{FEFF}'
  }

  function LowerChar(c: char): (r: char)
    ensures 'A' <= c <= 'Z' ==> 'a' <= r <= 'z'
    ensures !('A' <= c <= 'Z') ==> r == c
  {
    if 'A' <= c <= 'Z' then (c as int + 32) as char else c
  }

  /** String.prototype.toLowerCase on the ASCII letters. */
  function ToLower(s: string): (r: string)
    ensures |r| == |s|
    ensures forall i :: 0 <= i < |s| ==> r[i] == LowerChar(s[i])
    ensures forall i :: 0 <= i < |r| ==> !('A' <= r[i] <= 'Z')
  {
    seq(|s|, i requires 0 <= i < |s| => LowerChar(s[i]))
  }

  /** The suffix of `s` that starts at its first non-whitespace character. */
  function DropWhitespace(s: string): (r: string)
    ensures |r| <= |s| && r == s[|s| - |r|..]
    ensures r == [] || !IsWhitespace(r[0])
    ensures forall i :: 0 <= i < |s| - |r| ==> IsWhitespace(s[i])
  {
    if s != [] && IsWhitespace(s[0]) then DropWhitespace(s[1..]) else s
  }

  /** `s.replace(/\s+/g, "-")`: every maximal run of whitespace becomes one dash. */
  function CollapseWhitespace(s: string): (r: string)
    decreases |s|
  {
    if s == [] then []
    else if IsWhitespace(s[0]) then "-" + CollapseWhitespace(DropWhitespace(s[1..]))
    else [s[0]] + CollapseWhitespace(s[1..])
  }

  predicate NoWhitespace(s: string) {
    forall i :: 0 <= i < |s| ==> !IsWhitespace(s[i])
  }

  /** The file-name part of an image path. */
  function Slug(title: string): string {
    CollapseWhitespace(ToLower(title))
  }

  lemma {:induction false} CollapseRemovesWhitespace(s: string)
    ensures NoWhitespace(CollapseWhitespace(s))
    ensures |CollapseWhitespace(s)| <= |s|
    decreases |s|
  {
    if s == [] {
    } else if IsWhitespace(s[0]) {
      CollapseRemovesWhitespace(DropWhitespace(s[1..]));
    } else {
      CollapseRemovesWhitespace(s[1..]);
    }
  }

  lemma {:induction false} CollapseKeepsPlainText(s: string)
    requires NoWhitespace(s)
    ensures CollapseWhitespace(s) == s
    decreases |s|
  {
    if s != [] {
      assert !IsWhitespace(s[0]);
      CollapseKeepsPlainText(s[1..]);
    }
  }

  /** A whole run of whitespace, followed by a non-whitespace character or the end,
      turns into exactly one dash. */
  lemma {:induction false} CollapseOfRunIsOneDash(run: string, rest: string)
    requires run != [] && forall i :: 0 <= i < |run| ==> IsWhitespace(run[i])
    requires rest == [] || !IsWhitespace(rest[0])
    ensures CollapseWhitespace(run + rest) == "-" + CollapseWhitespace(rest)
  {
    var s := run + rest;
    assert s[1..] == run[1..] + rest;
    DropAll(run[1..], rest);
  }

  lemma {:induction false} DropAll(run: string, rest: string)
    requires forall i :: 0 <= i < |run| ==> IsWhitespace(run[i])
    requires rest == [] || !IsWhitespace(rest[0])
    ensures DropWhitespace(run + rest) == rest
    decreases |run|
  {
    if run != [] {
      assert (run + rest)[1..] == run[1..] + rest;
      DropAll(run[1..], rest);
    } else {
      assert run + rest == rest;
    }
  }

  /** The image name of the "Channel Power" card. */
  lemma SlugOfChannelPower(title: string)
    requires title == "Channel Power"
    ensures Slug(title) == "channel-power"
  {
    var low := ToLower(title);
    forall i | 0 <= i < 13 ensures low[i] == "channel power"[i] {
      assert low[i] == LowerChar(title[i]);
    }
    assert low == "channel" + " " + "power";
    CollapseTwoWords("channel", "power");
  }

  /** Two whitespace-free words separated by one space become the words joined by a dash. */
  lemma CollapseTwoWords(a: string, b: string)
    requires NoWhitespace(a) && NoWhitespace(b)
    ensures CollapseWhitespace(a + " " + b) == a + "-" + b
  {
    CollapseKeepsPlainText(b);
    assert b == [] || !IsWhitespace(b[0]);
    CollapseOfRunIsOneDash(" ", b);
    PlainPrefix(a, " " + b);
    assert a + " " + b == a + (" " + b);
  }

  lemma {:induction false} PlainPrefix(word: string, rest: string)
    requires NoWhitespace(word)
    ensures CollapseWhitespace(word + rest) == word + CollapseWhitespace(rest)
    decreases |word|
  {
    if word == [] {
      assert word + rest == rest;
    } else {
      assert (word + rest)[0] == word[0];
      assert (word + rest)[1..] == word[1..] + rest;
      PlainPrefix(word[1..], rest);
    }
  }

  function PlayerCardImagePath(title: string): string {
    "/cards/Player Decks/" + Slug(title) + ".png"
  }

  function EnvironmentImagePath(title: string): string {
    "/cards/Environments/" + Slug(title) + ".png"
  }

  function ItemImagePath(title: string): string {
    "/cards/Items/" + Slug(title) + ".png"
  }

  function PlayerCardBackPath(color: string): string {
    "/cards/Player Decks/player-card-back-" + color + ".png"
  }

  /** The image file name never holds whitespace, and it is the title itself,
      lower-cased, when the title has no whitespace. */
  lemma ImagePathShape(title: string)
    ensures var path := PlayerCardImagePath(title);
      var name := path[|"/cards/Player Decks/"|..|path| - 4];
      NoWhitespace(name) && |name| <= |title| && path[|path| - 4..] == ".png"
    ensures NoWhitespace(title) ==> PlayerCardImagePath(title) == "/cards/Player Decks/" + ToLower(title) + ".png"
  {
    var path := PlayerCardImagePath(title);
    var name := Slug(title);
    assert path == "/cards/Player Decks/" + name + ".png";
    assert path[|"/cards/Player Decks/"|..|path| - 4] == name;
    CollapseRemovesWhitespace(ToLower(title));
    if NoWhitespace(title) {
      assert NoWhitespace(ToLower(title)) by {
        forall i | 0 <= i < |title| ensures !IsWhitespace(ToLower(title)[i]) {
          assert !IsWhitespace(title[i]);
        }
      }
      CollapseKeepsPlainText(ToLower(title));
    }
  }

  function DigitChar(d: nat): char
    requires d < 10
  {
    "0123456789"[d]
  }

  /** The decimal rendering of a natural number, as a template literal prints it. */
  function NatToString(n: nat): (r: string)
    ensures |r| >= 1
    ensures forall i :: 0 <= i < |r| ==> '0' <= r[i] <= '9'
    ensures r[0] == '0' ==> n == 0
  {
    if n < 10 then [DigitChar(n)] else NatToString(n / 10) + [DigitChar(n % 10)]
  }

  function ParseDecimal(s: string): nat
    requires forall i :: 0 <= i < |s| ==> '0' <= s[i] <= '9'
  {
    if s == [] then 0 else 10 * ParseDecimal(s[..|s| - 1]) + (s[|s| - 1] as int - '0' as int)
  }

  lemma {:induction false} NatToStringRoundTrip(n: nat)
    ensures ParseDecimal(NatToString(n)) == n
  {
    var r := NatToString(n);
    if n >= 10 {
      NatToStringRoundTrip(n / 10);
      assert r[..|r| - 1] == NatToString(n / 10);
    }
  }

  lemma NatToStringInjective(m: nat, n: nat)
    requires m != n
    ensures NatToString(m) != NatToString(n)
  {
    NatToStringRoundTrip(m);
    NatToStringRoundTrip(n);
  }
}
