/** String helpers shared by the server and the client pages: the JavaScript
    `trim`, `toLowerCase`, `includes` and `startsWith` that the source applies
    to user input before comparing or storing it. */
module Text {

  /** The characters that `String.prototype.trim` removes and that the regular
      expression class `\s` matches: the WhiteSpace and LineTerminator code
      points of section 12.2 and 12.3 of ECMA-262 (2023 edition). */
  predicate IsSpace(c: char)
  {
    c == '\t' || c == '\n' || c == '\U{000B}' || c == '\U{000C}' || c == '\r' || c == ' '
    || c == '\U{00A0}' || c == '\U{1680}' || ('\U{2000}' <= c <= '\U{200A}')
    || c == '\U{2028}' || c == '\U{2029}' || c == '\U{202F}' || c == '\U{205F}'
    || c == '\U{3000}' || c == '\U{FEFF}'
  }

  predicate AllSpace(s: string)
  {
    forall i :: 0 <= i < |s| ==> IsSpace(s[i])
  }

  /** `s` with its leading white space removed. */
  function TrimStart(s: string): (r: string)
    ensures |r| <= |s|
    ensures r == [] || !IsSpace(r[0])
  {
    if s != [] && IsSpace(s[0]) then TrimStart(s[1..]) else s
  }

  /** What `TrimStart` removes is a white-space prefix. */
  lemma {:induction false} TrimStartSplit(s: string)
    ensures var r := TrimStart(s); r == s[|s| - |r|..] && AllSpace(s[..|s| - |r|])
  {
    if s != [] && IsSpace(s[0]) {
      TrimStartSplit(s[1..]);
      var r := TrimStart(s);
      assert s[1..][|s| - 1 - |r|..] == s[|s| - |r|..];
      assert s[..|s| - |r|] == [s[0]] + s[1..][..|s| - 1 - |r|];
    }
  }

  /** `s` with its trailing white space removed. */
  function TrimEnd(s: string): (r: string)
    ensures |r| <= |s|
    ensures r == [] || !IsSpace(r[|r| - 1])
  {
    if s != [] && IsSpace(s[|s| - 1]) then TrimEnd(s[..|s| - 1]) else s
  }

  /** What `TrimEnd` removes is a white-space suffix. */
  lemma {:induction false} TrimEndSplit(s: string)
    ensures var r := TrimEnd(s); r == s[..|r|] && AllSpace(s[|r|..])
  {
    if s != [] && IsSpace(s[|s| - 1]) {
      TrimEndSplit(s[..|s| - 1]);
      var r := TrimEnd(s);
      assert s[..|s| - 1][..|r|] == s[..|r|];
      assert s[|r|..] == s[..|s| - 1][|r|..] + [s[|s| - 1]];
    }
  }

  /** `String.prototype.trim`. */
  function Trim(s: string): (r: string)
    ensures |r| <= |s|
    ensures r == [] || (!IsSpace(r[0]) && !IsSpace(r[|r| - 1]))
  {
    var a := TrimStart(s);
    TrimEndSplit(a);
    TrimEnd(a)
  }

  /** A string is blank when trimming leaves nothing: the source's `!x.trim()`. */
  predicate IsBlank(s: string)
  {
    Trim(s) == []
  }

  lemma BlankIffAllSpace(s: string)
    ensures IsBlank(s) <==> AllSpace(s)
  {
    var a := TrimStart(s);
    TrimStartSplit(s);
    TrimEndSplit(a);
    var k := |s| - |a|;
    if a != [] {
      assert s[k] == a[0];
    }
    if IsBlank(s) {
      assert a[0..] == a;
      assert a == [];
      assert s[..k] == s;
    }
  }

  lemma TrimOfTrimmed(s: string)
    requires s == [] || (!IsSpace(s[0]) && !IsSpace(s[|s| - 1]))
    ensures Trim(s) == s
  {
  }

  /** Trimming twice is trimming once. */
  lemma TrimIdempotent(s: string)
    ensures Trim(Trim(s)) == Trim(s)
  {
    var t := Trim(s);
    if t != [] {
      assert !IsSpace(t[0]) && !IsSpace(t[|t| - 1]);
    }
    TrimOfTrimmed(t);
  }

  /** Lower-casing of one character: ASCII and Latin-1 capitals. */
  function LowerChar(c: char): (r: char)
    ensures 'A' <= c <= 'Z' ==> r as int == c as int + 32
    ensures !('A' <= c <= 'Z') && !('\U{00C0}' <= c <= '\U{00DE}') ==> r == c
  {
    if 'A' <= c <= 'Z' then (c as int + 32) as char
    else if '\U{00C0}' <= c <= '\U{00DE}' && c != '\U{00D7}' then (c as int + 32) as char
    else c
  }

  /** `String.prototype.toLowerCase`, character by character. */
  function ToLower(s: string): (r: string)
    ensures |r| == |s|
    ensures forall i :: 0 <= i < |s| ==> r[i] == LowerChar(s[i])
  {
    if s == [] then [] else [LowerChar(s[0])] + ToLower(s[1..])
  }

  /** What a search box searches for: the query trimmed, then lower-cased. */
  function SearchTerm(query: string): (r: string)
    ensures r == [] <==> IsBlank(query)
  {
    ToLower(Trim(query))
  }

  /** `needle` occurs in `hay` starting at index `i`. */
  predicate OccursAt(hay: string, needle: string, i: int)
  {
    0 <= i && i + |needle| <= |hay| && hay[i..i + |needle|] == needle
  }

  /** `String.prototype.includes`, written as the left-to-right scan. */
  function Includes(hay: string, needle: string): bool
    decreases |hay|
  {
    if |needle| > |hay| then false
    else if hay[..|needle|] == needle then true
    else Includes(hay[1..], needle)
  }

  /** The scan agrees with the existence of an occurrence. */
  lemma {:induction false} IncludesIffOccurs(hay: string, needle: string)
    ensures Includes(hay, needle) <==> exists i :: OccursAt(hay, needle, i)
    decreases |hay|
  {
    if |needle| > |hay| {
    } else if hay[..|needle|] == needle {
      assert OccursAt(hay, needle, 0);
    } else {
      IncludesIffOccurs(hay[1..], needle);
      if Includes(hay[1..], needle) {
        var j :| OccursAt(hay[1..], needle, j);
        assert hay[j + 1..j + 1 + |needle|] == hay[1..][j..j + |needle|];
        assert OccursAt(hay, needle, j + 1);
      }
      forall i | OccursAt(hay, needle, i) && i != 0
        ensures OccursAt(hay[1..], needle, i - 1)
      {
        assert hay[1..][i - 1..i - 1 + |needle|] == hay[i..i + |needle|];
      }
    }
  }

  /** The empty string is included in every string, as in JavaScript. */
  lemma {:induction false} IncludesEmpty(hay: string)
    ensures Includes(hay, [])
  {
    assert hay[..0] == [];
  }

  /** `String.prototype.startsWith`. */
  predicate StartsWith(s: string, prefix: string)
  {
    |prefix| <= |s| && s[..|prefix|] == prefix
  }
}
