/**
 * `detectFormat` of the colour converter (src/components/ColorConverter.tsx):
 * the text is trimmed and lower-cased, then classified by its prefix as one
 * of "hex", "rgb", "hsl", "cmyk" or "oklch", or as nothing (`null`).
 */
module ColorFormat {
  import opened Wrappers

  /**
   * The characters `String.prototype.trim` strips: the ECMAScript
   * WhiteSpace (tab, vertical tab, form feed, the byte-order mark and the
   * space separators) and LineTerminator code points.
   */
  predicate IsSpace(c: char) {
    || c == '\t' || c == '\n' || c == '\U{0B}' || c == '\U{0C}' || c == '\r' || c == ' '
    || c == '\U{A0}' || c == '\U{1680}' || ('\U{2000}' <= c <= '\U{200A}')
    || c == '\U{2028}' || c == '\U{2029}' || c == '\U{202F}' || c == '\U{205F}'
    || c == '\U{3000}' || c == '\U{FEFF}'
  }

  predicate AllSpace(s: string) {
    forall i :: 0 <= i < |s| ==> IsSpace(s[i])
  }

  /** `s` without its leading white space. */
  function TrimStart(s: string): string {
    if |s| > 0 && IsSpace(s[0]) then TrimStart(s[1..]) else s
  }

  /** `s` without its trailing white space. */
  function TrimEnd(s: string): string {
    if |s| > 0 && IsSpace(s[|s| - 1]) then TrimEnd(s[..|s| - 1]) else s
  }

  /** `value.trim()`. */
  function Trim(s: string): string {
    TrimEnd(TrimStart(s))
  }

  /** `toLowerCase` on one character, for the ASCII letters. */
  function LowerChar(c: char): char {
    if 'A' <= c <= 'Z' then (c as int + 32) as char else c
  }

  /** `toLowerCase`, character by character. */
  function Lowercase(s: string): (r: string)
    ensures |r| == |s| && forall i :: 0 <= i < |s| ==> r[i] == LowerChar(s[i])
  {
    seq(|s|, i requires 0 <= i < |s| => LowerChar(s[i]))
  }

  /** `value.trim().toLowerCase()`. */
  function Normalize(s: string): string {
    Lowercase(Trim(s))
  }

  /** The five ids `detectFormat` can return. */
  const FORMATS: set<string> := {"hex", "rgb", "hsl", "cmyk", "oklch"}

  /** `detectFormat(value)`: `None` stands for `null`. */
  function DetectFormat(value: string): (r: Option<string>)
    ensures r.Some? ==> r.value in FORMATS
  {
    var v := Normalize(value);
    if "#" <= v && |v| > 2 then Some("hex")
    else if "rgb" <= v then Some("rgb")
    else if "hsl" <= v then Some("hsl")
    else if "cmyk" <= v then Some("cmyk")
    else if "oklch" <= v then Some("oklch")
    else None
  }

  /**
   * An independent reading of the classifier: a table of rules, each a
   * prefix, a least length and the id it yields, tried in order.
   */
  datatype Rule = Rule(prefix: string, minLength: nat, id: string)

  function Rules(): seq<Rule> {
    [Rule("#", 3, "hex"), Rule("rgb", 0, "rgb"), Rule("hsl", 0, "hsl"), Rule("cmyk", 0, "cmyk"), Rule("oklch", 0, "oklch")]
  }

  predicate Matches(rule: Rule, v: string) {
    rule.prefix <= v && |v| >= rule.minLength
  }

  /** The id of the first rule from `k` on that matches `v`. */
  function FirstMatch(rules: seq<Rule>, k: nat, v: string): Option<string>
    decreases |rules| - k
  {
    if k >= |rules| then None
    else if Matches(rules[k], v) then Some(rules[k].id)
    else FirstMatch(rules, k + 1, v)
  }

  /** `FirstMatch` finds the first matching rule, and nothing when none matches. */
  lemma {:induction false} FirstMatchSpec(rules: seq<Rule>, k: nat, v: string)
    ensures FirstMatch(rules, k, v) == None <==> forall j :: k <= j < |rules| ==> !Matches(rules[j], v)
    ensures FirstMatch(rules, k, v).Some? ==>
      exists j :: k <= j < |rules| && Matches(rules[j], v) && FirstMatch(rules, k, v).value == rules[j].id &&
        forall i :: k <= i < j ==> !Matches(rules[i], v)
    decreases |rules| - k
  {
    if k < |rules| && !Matches(rules[k], v) {
      FirstMatchSpec(rules, k + 1, v);
      if FirstMatch(rules, k + 1, v).Some? {
        var j :| k + 1 <= j < |rules| && Matches(rules[j], v) && FirstMatch(rules, k + 1, v).value == rules[j].id &&
          forall i :: k + 1 <= i < j ==> !Matches(rules[i], v);
        assert forall i :: k <= i < j ==> !Matches(rules[i], v);
      }
    }
  }

  /** `detectFormat` is the first rule of the table that matches the normalised text. */
  lemma DetectIsFirstMatch(value: string)
    ensures DetectFormat(value) == FirstMatch(Rules(), 0, Normalize(value))
  {
    var v := Normalize(value);
    var rs := Rules();
    assert FirstMatch(rs, 5, v) == None;
    assert FirstMatch(rs, 4, v) == if "oklch" <= v then Some("oklch") else None;
    assert FirstMatch(rs, 3, v) == if "cmyk" <= v then Some("cmyk") else FirstMatch(rs, 4, v);
    assert FirstMatch(rs, 2, v) == if "hsl" <= v then Some("hsl") else FirstMatch(rs, 3, v);
    assert FirstMatch(rs, 1, v) == if "rgb" <= v then Some("rgb") else FirstMatch(rs, 2, v);
  }

  /**
   * `null` exactly when no rule matches; otherwise the id of a matching
   * rule that no earlier rule pre-empts.
   */
  lemma DetectNoneIff(value: string)
    ensures DetectFormat(value) == None <==> forall j :: 0 <= j < |Rules()| ==> !Matches(Rules()[j], Normalize(value))
    ensures DetectFormat(value).Some? ==>
      exists j :: 0 <= j < |Rules()| && Matches(Rules()[j], Normalize(value)) && DetectFormat(value).value == Rules()[j].id &&
        forall i :: 0 <= i < j ==> !Matches(Rules()[i], Normalize(value))
  {
    DetectIsFirstMatch(value);
    FirstMatchSpec(Rules(), 0, Normalize(value));
  }

  /** "hex" exactly when the normalised text starts with `#` and has more than two characters. */
  lemma HexIff(value: string)
    ensures DetectFormat(value) == Some("hex") <==> var v := Normalize(value); |v| > 2 && v[0] == '#'
  {
    var v := Normalize(value);
    if |v| > 0 && v[0] == '#' {
      assert "#" <= v;
    }
  }

  /** A lone `#`, or `#` and one more character, is not a colour; `#` and two non-blank characters are. */
  lemma ShortHash(c: char)
    ensures DetectFormat("#") == None && DetectFormat(['#', c]) == None
    ensures !IsSpace(c) ==> DetectFormat(['#', c, c]) == Some("hex")
  {
    TrimFrom("#", []);
    assert "#" + [] == "#";
    if IsSpace(c) {
      TrimFrom("#", [c]);
      assert ['#', c] == "#" + [c];
      assert TrimEnd([c]) == TrimEnd([]) == [];
      assert Normalize(['#', c]) == Lowercase("#");
    } else {
      TrimFrom(['#', c], []);
      assert ['#', c] + [] == ['#', c];
      TrimFrom(['#', c, c], []);
      assert ['#', c, c] + [] == ['#', c, c];
    }
  }

  /** `rgba(...)` is classified as rgb and `hsla(...)` as hsl, whatever the case. */
  lemma AlphaForms(rest: string)
    ensures DetectFormat("rgba(" + rest) == Some("rgb")
    ensures DetectFormat("RGBA(" + rest) == Some("rgb")
    ensures DetectFormat("hsla(" + rest) == Some("hsl")
  {
    NormalizeFrom("rgba(", rest);
    assert Lowercase("rgba(") == "rgba(";
    assert Normalize("rgba(" + rest)[..3] == "rgb";
    NormalizeFrom("RGBA(", rest);
    assert Lowercase("RGBA(") == "rgba(";
    assert Normalize("RGBA(" + rest)[..3] == "rgb";
    NormalizeFrom("hsla(", rest);
    assert Lowercase("hsla(") == "hsla(";
    assert Normalize("hsla(" + rest)[..3] == "hsl";
  }

  /** The normalised text then starts with the lower-cased leading part. */
  lemma NormalizeFrom(p: string, rest: string)
    requires |p| > 0 && !IsSpace(p[0]) && !IsSpace(p[|p| - 1])
    ensures Lowercase(p) <= Normalize(p + rest)
  {
    TrimFrom(p, rest);
    assert Lowercase(p + TrimEnd(rest))[..|p|] == Lowercase(p);
  }

  /** Text that starts and ends with a non-blank character keeps it when trimmed, whatever follows. */
  lemma TrimFrom(p: string, rest: string)
    requires |p| > 0 && !IsSpace(p[0]) && !IsSpace(p[|p| - 1])
    ensures Trim(p + rest) == p + TrimEnd(rest)
  {
    TrimStartAppend(p, rest);
    TrimEndAppend(p, rest);
    if TrimEnd(rest) == [] {
      assert p + TrimEnd(rest) == p;
    }
  }

  // Trimming and lower-casing

  lemma {:induction false} TrimStartAppend(x: string, y: string)
    ensures TrimStart(x + y) == if TrimStart(x) == [] then TrimStart(y) else TrimStart(x) + y
    decreases |x|
  {
    if |x| > 0 && IsSpace(x[0]) {
      assert (x + y)[1..] == x[1..] + y;
      TrimStartAppend(x[1..], y);
    } else if |x| == 0 {
      assert x + y == y;
    }
  }

  lemma {:induction false} TrimEndAppend(x: string, y: string)
    ensures TrimEnd(x + y) == if TrimEnd(y) == [] then TrimEnd(x) else x + TrimEnd(y)
    decreases |y|
  {
    if |y| > 0 && IsSpace(y[|y| - 1]) {
      assert (x + y)[..|x + y| - 1] == x + y[..|y| - 1];
      TrimEndAppend(x, y[..|y| - 1]);
    } else if |y| == 0 {
      assert x + y == x;
    }
  }

  lemma {:induction false} TrimStartSpace(s: string)
    requires AllSpace(s)
    ensures TrimStart(s) == []
    decreases |s|
  {
    if |s| > 0 {
      TrimStartSpace(s[1..]);
    }
  }

  lemma {:induction false} TrimEndSpace(s: string)
    requires AllSpace(s)
    ensures TrimEnd(s) == []
    decreases |s|
  {
    if |s| > 0 {
      TrimEndSpace(s[..|s| - 1]);
    }
  }

  /** Surrounding white space does not change the trimmed text. */
  lemma TrimPadded(pre: string, s: string, post: string)
    requires AllSpace(pre) && AllSpace(post)
    ensures Trim(pre + s + post) == Trim(s)
  {
    TrimStartSpace(pre);
    TrimStartSpace(post);
    TrimEndSpace(post);
    assert pre + s + post == pre + (s + post);
    TrimStartAppend(pre, s + post);
    TrimStartAppend(s, post);
    assert TrimStart(pre + s + post) == TrimStart(s + post);
    if TrimStart(s) != [] {
      TrimEndAppend(TrimStart(s), post);
      assert TrimEnd(TrimStart(s) + post) == TrimEnd(TrimStart(s));
    } else {
      assert TrimStart(s + post) == [];
    }
  }

  /** Lower-casing only changes letters, so it keeps white space where it was. */
  lemma LowerSpace(c: char)
    ensures IsSpace(LowerChar(c)) == IsSpace(c)
  {
  }

  lemma {:induction false} LowerTrimStart(s: string)
    ensures Lowercase(TrimStart(s)) == TrimStart(Lowercase(s))
    decreases |s|
  {
    if |s| > 0 {
      LowerSpace(s[0]);
      if IsSpace(s[0]) {
        assert Lowercase(s)[1..] == Lowercase(s[1..]);
        LowerTrimStart(s[1..]);
      }
    }
  }

  lemma {:induction false} LowerTrimEnd(s: string)
    ensures Lowercase(TrimEnd(s)) == TrimEnd(Lowercase(s))
    decreases |s|
  {
    if |s| > 0 {
      LowerSpace(s[|s| - 1]);
      if IsSpace(s[|s| - 1]) {
        assert Lowercase(s)[..|s| - 1] == Lowercase(s[..|s| - 1]);
        LowerTrimEnd(s[..|s| - 1]);
      }
    }
  }

  /** Trimming and lower-casing commute. */
  lemma NormalizeLowerFirst(s: string)
    ensures Normalize(s) == Trim(Lowercase(s))
  {
    LowerTrimEnd(TrimStart(s));
    LowerTrimStart(s);
  }

  /** Letter case does not matter: texts that lower-case alike are classified alike. */
  lemma DetectIgnoresCase(value: string, other: string)
    requires Lowercase(value) == Lowercase(other)
    ensures DetectFormat(value) == DetectFormat(other)
  {
    NormalizeLowerFirst(value);
    NormalizeLowerFirst(other);
  }

  /** Surrounding white space does not matter. */
  lemma DetectIgnoresSpace(pre: string, value: string, post: string)
    requires AllSpace(pre) && AllSpace(post)
    ensures DetectFormat(pre + value + post) == DetectFormat(value)
  {
    TrimPadded(pre, value, post);
  }
}
