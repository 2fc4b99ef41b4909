/**
 * The plate matcher `buscarPlaca`: every OCR text block is cleaned (separators
 * removed, then upper-cased) and the first cleaned block that is a whole match
 * of `^[A-Z0-9]{6,8}$` is the plate.
 */
module PlateMatcher {
  import opened Wrappers

  /** The character class `[\s\n-]`. On Android the regular expressions are
      ICU's, whose `\s` is the Unicode White_Space property: tab, line feed,
      vertical tab, form feed, carriage return, space, next line (U+0085),
      no-break space (U+00A0), Ogham space mark (U+1680), the spaces
      U+2000-U+200A, line and paragraph separators (U+2028, U+2029), narrow
      no-break space (U+202F), medium mathematical space (U+205F) and
      ideographic space (U+3000). The class adds `-`. (Tab to carriage
      return are U+0009-U+000D.) */
  predicate IsSeparator(c: char) {
    if c < '\U{0080}' then
      '\t' <= c <= '\r' || c == ' ' || c == '-'
    else
      c == '\U{0085}' || c == '\U{00A0}' || c == '\U{1680}' || '\U{2000}' <= c <= '\U{200A}' ||
      c == '\U{2028}' || c == '\U{2029}' || c == '\U{202F}' || c == '\U{205F}' || c == '\U{3000}'
  }

  predicate NoSeparators(s: string) {
    forall i | 0 <= i < |s| :: !IsSeparator(s[i])
  }

  /** `replace(Regex("[\\s\\n-]"), "")`: drops every separator and keeps the rest in order. */
  function Strip(s: string): (r: string)
    ensures NoSeparators(r)
    ensures |r| <= |s|
  {
    if s == [] then []
    else if IsSeparator(s[0]) then Strip(s[1..])
    else [s[0]] + Strip(s[1..])
  }

  /** Upper-case form of one character under `uppercase()` (the root locale):
      ASCII `a`-`z`, and the non-ASCII characters whose upper-case form is
      made of ASCII letters (dotless i, long s, sharp s and the Latin
      ligatures U+FB00-U+FB06). Every other character is kept as it is. */
  function UpperOf(c: char): string {
    if 'a' <= c <= 'z' then [(c as int - 32) as char]
    else if c == '\U{0131}' then "I"
    else if c == '\U{017F}' then "S"
    else if c == '\U{00DF}' then "SS"
    else if c == '\U{FB00}' then "FF"
    else if c == '\U{FB01}' then "FI"
    else if c == '\U{FB02}' then "FL"
    else if c == '\U{FB03}' then "FFI"
    else if c == '\U{FB04}' then "FFL"
    else if c == '\U{FB05}' || c == '\U{FB06}' then "ST"
    else [c]
  }

  /** `uppercase()` on a whole string, character by character. */
  function Upper(s: string): string {
    if s == [] then [] else UpperOf(s[0]) + Upper(s[1..])
  }

  /** The cleaned text `textoLimpio` of one block. */
  function Clean(s: string): string {
    Upper(Strip(s))
  }

  predicate IsPlateChar(c: char) {
    'A' <= c <= 'Z' || '0' <= c <= '9'
  }

  /** Whole-string match of `^[A-Z0-9]{6,8}$`. */
  predicate IsPlate(t: string) {
    6 <= |t| <= 8 && forall i | 0 <= i < |t| :: IsPlateChar(t[i])
  }

  /** The specification of `buscarPlaca`: the cleaned text of the first block
      whose cleaned text is a plate, or `None` when no block's is. */
  function FindPlate(blocks: seq<string>): (r: Option<string>)
    ensures r.Some? ==> IsPlate(r.value)
    ensures r.None? <==> forall i | 0 <= i < |blocks| :: !IsPlate(Clean(blocks[i]))
  {
    if blocks == [] then None
    else if IsPlate(Clean(blocks[0])) then Some(Clean(blocks[0]))
    else FindPlate(blocks[1..])
  }

  /** `buscarPlaca` as written: a loop over the blocks with an early return. */
  method BuscarPlaca(blocks: seq<string>) returns (r: Option<string>)
    ensures r == FindPlate(blocks)
  {
    for i := 0 to |blocks|
      invariant FindPlate(blocks[i..]) == FindPlate(blocks)
    {
      assert blocks[i..][1..] == blocks[i + 1..];
      var textoLimpio := Clean(blocks[i]);
      if IsPlate(textoLimpio) {
        return Some(textoLimpio);
      }
    }
    return None;
  }

  // ---------------------------------------------------------------------------
  // Cleaning works character by character

  lemma {:induction false} StripConcat(a: string, b: string)
    ensures Strip(a + b) == Strip(a) + Strip(b)
  {
    if a == [] {
      assert a + b == b;
    } else {
      assert (a + b)[0] == a[0];
      assert (a + b)[1..] == a[1..] + b;
      StripConcat(a[1..], b);
    }
  }

  lemma {:induction false} UpperConcat(a: string, b: string)
    ensures Upper(a + b) == Upper(a) + Upper(b)
  {
    if a == [] {
      assert a + b == b;
    } else {
      assert (a + b)[0] == a[0];
      assert (a + b)[1..] == a[1..] + b;
      UpperConcat(a[1..], b);
    }
  }

  /** Cleaning removes exactly the separators, upper-cases every other
      character and keeps the order: a character in the middle of a block
      contributes nothing if it is a separator and its upper-case form otherwise. */
  lemma CleanIsPerCharacter(a: string, c: char, b: string)
    ensures Clean(a + [c] + b) == Clean(a) + (if IsSeparator(c) then "" else UpperOf(c)) + Clean(b)
  {
    StripConcat(a + [c], b);
    StripConcat(a, [c]);
    assert [c][1..] == [];
    var mid := if IsSeparator(c) then "" else [c];
    assert Strip([c]) == mid;
    UpperConcat(Strip(a) + mid, Strip(b));
    UpperConcat(Strip(a), mid);
    assert Upper(mid) == (if IsSeparator(c) then "" else UpperOf(c)) by {
      if !IsSeparator(c) {
        assert mid[1..] == [];
        assert UpperOf(c) + [] == UpperOf(c);
      }
    }
  }

  /** A text is left unchanged by stripping exactly when it has no separator. */
  lemma {:induction false} StripIdentity(s: string)
    ensures Strip(s) == s <==> NoSeparators(s)
  {
    if s != [] && NoSeparators(s) {
      assert NoSeparators(s[1..]) by {
        forall i | 0 <= i < |s[1..]| ensures !IsSeparator(s[1..][i]) {
          assert s[1..][i] == s[i + 1];
        }
      }
      StripIdentity(s[1..]);
      assert [s[0]] + s[1..] == s;
    }
  }

  /** Characters that upper-casing maps to themselves. */
  predicate UpperFixed(s: string) {
    forall i | 0 <= i < |s| :: UpperOf(s[i]) == [s[i]]
  }

  lemma {:induction false} UpperOfFixed(c: char)
    ensures UpperFixed(UpperOf(c))
    ensures !IsSeparator(c) ==> NoSeparators(UpperOf(c))
  {
  }

  /** Upper-casing produces only characters it would leave alone, and adds no separator. */
  lemma {:induction false} UpperOutput(s: string)
    ensures UpperFixed(Upper(s))
    ensures NoSeparators(s) ==> NoSeparators(Upper(s))
  {
    if s != [] {
      UpperOutput(s[1..]);
      UpperOfFixed(s[0]);
      if NoSeparators(s) {
        assert !IsSeparator(s[0]);
        assert NoSeparators(s[1..]) by {
          forall i | 0 <= i < |s[1..]| ensures !IsSeparator(s[1..][i]) {
            assert s[1..][i] == s[i + 1];
          }
        }
      }
      var u, v := UpperOf(s[0]), Upper(s[1..]);
      assert Upper(s) == u + v;
      forall i | 0 <= i < |u + v|
        ensures UpperOf((u + v)[i]) == [(u + v)[i]]
        ensures NoSeparators(s) ==> !IsSeparator((u + v)[i])
      {
        if i < |u| { assert (u + v)[i] == u[i]; } else { assert (u + v)[i] == v[i - |u|]; }
      }
    }
  }

  lemma {:induction false} UpperIdentity(s: string)
    requires UpperFixed(s)
    ensures Upper(s) == s
  {
    if s != [] {
      assert UpperFixed(s[1..]) by {
        forall i | 0 <= i < |s[1..]| ensures UpperOf(s[1..][i]) == [s[1..][i]] {
          assert s[1..][i] == s[i + 1];
        }
      }
      UpperIdentity(s[1..]);
      assert UpperOf(s[0]) == [s[0]];
      assert [s[0]] + s[1..] == s;
    }
  }

  /** Cleaning twice is the same as cleaning once. */
  lemma {:induction false} CleanIdempotent(s: string)
    ensures Clean(Clean(s)) == Clean(s)
  {
    var t := Upper(Strip(s));
    UpperOutput(Strip(s));
    StripIdentity(t);
    UpperIdentity(t);
  }

  /** A plate is its own cleaned form. */
  lemma PlateIsClean(p: string)
    requires IsPlate(p)
    ensures Clean(p) == p
  {
    PlateIsCleanText(p);
  }

  /** So is any text made only of plate characters. */
  lemma PlateIsCleanText(p: string)
    requires forall i | 0 <= i < |p| :: IsPlateChar(p[i])
    ensures Clean(p) == p
  {
    assert NoSeparators(p) by {
      forall i | 0 <= i < |p| ensures !IsSeparator(p[i]) {
        assert IsPlateChar(p[i]);
      }
    }
    StripIdentity(p);
    assert UpperFixed(p) by {
      forall i | 0 <= i < |p| ensures UpperOf(p[i]) == [p[i]] {
        assert IsPlateChar(p[i]);
      }
    }
    UpperIdentity(p);
  }

  // ---------------------------------------------------------------------------
  // First match

  /** If block `i` is the first block whose cleaned text is a plate, that text is the result. */
  lemma {:induction false} FindPlateFirstMatch(blocks: seq<string>, i: int)
    requires 0 <= i < |blocks| && IsPlate(Clean(blocks[i]))
    requires forall j | 0 <= j < i :: !IsPlate(Clean(blocks[j]))
    ensures FindPlate(blocks) == Some(Clean(blocks[i]))
  {
    if i > 0 {
      assert !IsPlate(Clean(blocks[0]));
      forall j | 0 <= j < i - 1 ensures !IsPlate(Clean(blocks[1..][j])) {
        assert blocks[1..][j] == blocks[j + 1];
      }
      FindPlateFirstMatch(blocks[1..], i - 1);
    }
  }

  /** Conversely, a result is the cleaned text of some block, and no earlier block matched. */
  lemma {:induction false} FindPlateIsFirstMatch(blocks: seq<string>)
    requires FindPlate(blocks).Some?
    ensures exists i | 0 <= i < |blocks| ::
              Clean(blocks[i]) == FindPlate(blocks).value &&
              forall j | 0 <= j < i :: !IsPlate(Clean(blocks[j]))
  {
    if !IsPlate(Clean(blocks[0])) {
      FindPlateIsFirstMatch(blocks[1..]);
      var i :| 0 <= i < |blocks[1..]| &&
               Clean(blocks[1..][i]) == FindPlate(blocks[1..]).value &&
               forall j | 0 <= j < i :: !IsPlate(Clean(blocks[1..][j]));
      forall j | 0 <= j < i + 1 ensures !IsPlate(Clean(blocks[j])) {
        if j > 0 { assert blocks[j] == blocks[1..][j - 1]; }
      }
      assert Clean(blocks[i + 1]) == FindPlate(blocks).value;
    } else {
      assert Clean(blocks[0]) == FindPlate(blocks).value;
    }
  }

  /** Every block cleaned beforehand. */
  function CleanAll(blocks: seq<string>): (r: seq<string>)
    ensures |r| == |blocks|
  {
    seq(|blocks|, i requires 0 <= i < |blocks| => Clean(blocks[i]))
  }

  /** Matching already-cleaned blocks gives the same result as matching the raw blocks. */
  lemma {:induction false} FindPlateNormalized(blocks: seq<string>)
    ensures FindPlate(CleanAll(blocks)) == FindPlate(blocks)
  {
    if blocks != [] {
      CleanIdempotent(blocks[0]);
      assert CleanAll(blocks)[0] == Clean(blocks[0]);
      assert CleanAll(blocks)[1..] == CleanAll(blocks[1..]);
      FindPlateNormalized(blocks[1..]);
    }
  }

  // ---------------------------------------------------------------------------
  // Concrete cases

  /** A lower-case plate with a hyphen is found, hyphen removed and upper-cased. */
  lemma HyphenatedPlate()
    ensures FindPlate(["vla-551a"]) == Some("VLA551A")
  {
    CleanLowerVla();
    CleanLower551a();
    var p := "VLA551A";
    assert "VLA" + "551A" == p;
    assert IsPlate(p) by {
      forall i | 0 <= i < |p| ensures IsPlateChar(p[i]) { }
    }
    assert "vla" + ['-'] + "551a" == "vla-551a";
    SeparatorInsideBlock("vla", '-', "551a");
  }

  lemma CleanLowerVla()
    ensures Clean("vla") == "VLA"
  {
    StripIdentity("vla");
    assert Upper("a") == "A";
    assert Upper("la") == "LA";
  }

  lemma CleanLower551a()
    ensures Clean("551a") == "551A"
  {
    StripIdentity("551a");
    assert Upper("a") == "A";
    assert Upper("1a") == "1A";
    assert Upper("51a") == "51A";
  }

  /** A block made of two parts around a separator is found when the two
      cleaned parts together are a plate. */
  lemma SeparatorInsideBlock(a: string, c: char, b: string)
    requires IsSeparator(c) && IsPlate(Clean(a) + Clean(b))
    ensures FindPlate([a + [c] + b]) == Some(Clean(a) + Clean(b))
  {
    CleanIsPerCharacter(a, c, b);
    assert Clean(a) + "" + Clean(b) == Clean(a) + Clean(b);
    var blocks := [a + [c] + b];
    assert Clean(blocks[0]) == Clean(a) + Clean(b);
  }

  /** A separator between two runs of plate characters is dropped, and the
      joined text is found when it is a plate. */
  lemma SeparatorInsidePlate(a: string, c: char, b: string)
    requires IsSeparator(c) && IsPlate(a + b)
    ensures FindPlate([a + [c] + b]) == Some(a + b)
  {
    assert forall i | 0 <= i < |a| :: IsPlateChar(a[i]) by {
      forall i | 0 <= i < |a| ensures IsPlateChar(a[i]) { assert a[i] == (a + b)[i]; }
    }
    assert forall i | 0 <= i < |b| :: IsPlateChar(b[i]) by {
      forall i | 0 <= i < |b| ensures IsPlateChar(b[i]) { assert b[i] == (a + b)[|a| + i]; }
    }
    CleanIsPerCharacter(a, c, b);
    PlateIsCleanText(a);
    PlateIsCleanText(b);
    assert a + "" + b == a + b;
    var blocks := [a + [c] + b];
    assert Clean(blocks[0]) == a + b;
  }

  /** A no-break space inside a block is removed like an ordinary space. */
  lemma NoBreakSpacePlate()
    ensures FindPlate(["VLA\U{00A0}551A"]) == Some("VLA551A")
  {
    var p := "VLA551A";
    assert IsPlate(p) by {
      forall i | 0 <= i < |p| ensures IsPlateChar(p[i]) { }
    }
    assert "VLA" + "551A" == p;
    assert "VLA" + ['\U{00A0}'] + "551A" == "VLA\U{00A0}551A";
    SeparatorInsidePlate("VLA", '\U{00A0}', "551A");
  }

  /** Five characters are too few. */
  lemma ShortBlockRejected()
    ensures FindPlate(["12345"]) == None
  {
  }
}
