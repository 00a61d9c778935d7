/**
  normalize_size(): the post-processing the plugin applies to the host's
  size_format(bytes, decimals). The formatter itself (unit choice, float
  division, locale) is a parameter; only the plugin's own steps are modelled.
 */
module SizeFormat {

  /** The host's size_format(bytes, decimals). */
  type Formatter = (nat, nat) -> string

  /** strpos(s, ".0") !== false: ".0" occurs anywhere in s. */
  predicate HasPointZero(s: string)
  {
    |s| >= 2 && ((s[0] == '.' && s[1] == '0') || HasPointZero(s[1..]))
  }

  lemma {:induction false} HasPointZeroAt(s: string)
    ensures HasPointZero(s) <==> exists i :: 0 <= i < |s| - 1 && s[i] == '.' && s[i + 1] == '0'
  {
    if |s| >= 2 {
      HasPointZeroAt(s[1..]);
      if !(s[0] == '.' && s[1] == '0') && (exists i :: 0 <= i < |s| - 1 && s[i] == '.' && s[i + 1] == '0') {
        var i :| 0 <= i < |s| - 1 && s[i] == '.' && s[i + 1] == '0';
        assert i > 0;
        assert s[1..][i - 1] == '.' && s[1..][i] == '0';
      }
    }
  }

  /** str_replace([' ', 'B'], '', s). */
  function StripSpaceAndB(s: string): (r: string)
    ensures |r| <= |s|
    ensures forall c :: c in r <==> c in s && c != ' ' && c != 'B'
  {
    if s == [] then []
    else (if s[0] == ' ' || s[0] == 'B' then [] else [s[0]]) + StripSpaceAndB(s[1..])
  }

  /** A single character is dropped exactly when it is a space or a 'B'. */
  lemma StripOne(c: char)
    ensures StripSpaceAndB([c]) == if c == ' ' || c == 'B' then [] else [c]
  {
    assert [c][1..] == [];
  }

  /** Stripping works piece by piece: every other character keeps its place and its count. */
  lemma {:induction false} StripConcat(a: string, b: string)
    ensures StripSpaceAndB(a + b) == StripSpaceAndB(a) + StripSpaceAndB(b)
  {
    if a == [] {
      assert a + b == b;
    } else {
      assert (a + b)[0] == a[0];
      assert (a + b)[1..] == a[1..] + b;
      StripConcat(a[1..], b);
    }
  }

  /** A string without spaces and 'B's is left as it is. */
  lemma {:induction false} StripClean(s: string)
    requires ' ' !in s && 'B' !in s
    ensures StripSpaceAndB(s) == s
  {
    if s != [] {
      assert s[0] in s;
      assert forall c :: c in s[1..] ==> c in s;
      StripClean(s[1..]);
    }
  }

  /**
    normalize_size(bytes): render with one decimal; when that rendering
    contains ".0" re-render with the formatter's default (no decimals); then
    drop every space and every 'B'.
   */
  function NormalizeSize(bytes: nat, sizeFormat: Formatter): (r: string)
    ensures ' ' !in r && 'B' !in r
    ensures HasPointZero(sizeFormat(bytes, 1)) ==> r == StripSpaceAndB(sizeFormat(bytes, 0))
    ensures !HasPointZero(sizeFormat(bytes, 1)) ==> r == StripSpaceAndB(sizeFormat(bytes, 1))
  {
    var one := sizeFormat(bytes, 1);
    var shown := if HasPointZero(one) then sizeFormat(bytes, 0) else one;
    StripSpaceAndB(shown)
  }

  /** Normalizing a rendering that has no space and no 'B' and no ".0" returns it unchanged. */
  lemma NormalizeKeepsCleanRendering(bytes: nat, sizeFormat: Formatter)
    requires var one := sizeFormat(bytes, 1); !HasPointZero(one) && ' ' !in one && 'B' !in one
    ensures NormalizeSize(bytes, sizeFormat) == sizeFormat(bytes, 1)
  {
    StripClean(sizeFormat(bytes, 1));
  }

  /** An exact 4 MiB reads "4.0 MB" with one decimal and "4 MB" without: the result is "4M" ('B' is stripped too). */
  lemma FourMebibytes(sizeFormat: Formatter)
    requires sizeFormat(4194304, 1) == "4.0 MB" && sizeFormat(4194304, 0) == "4 MB"
    ensures NormalizeSize(4194304, sizeFormat) == "4M"
  {
    assert HasPointZero("4.0 MB") by { assert "4.0 MB"[1..][0] == '.'; }
    assert StripSpaceAndB("4 MB") == "4M" by {
      assert "4 MB" == "4" + " " + "M" + "B";
      StripConcat("4" + " " + "M", "B");
      StripConcat("4" + " ", "M");
      StripConcat("4", " ");
      StripOne('4'); StripOne(' '); StripOne('M'); StripOne('B');
    }
  }

  /** 4,500,000 bytes read "4.3 MB": the decimal survives and the result is "4.3M". */
  lemma KeepsDecimalExample(sizeFormat: Formatter)
    requires sizeFormat(4500000, 1) == "4.3 MB"
    ensures NormalizeSize(4500000, sizeFormat) == "4.3M"
  {
    HasPointZeroAt("4.3 MB");
    assert StripSpaceAndB("4.3 MB") == "4.3M" by {
      assert "4.3 MB" == "4.3" + " " + "MB";
      StripConcat("4.3" + " ", "MB");
      StripConcat("4.3", " ");
      StripClean("4.3");
      StripOne(' ');
      assert "MB" == "M" + "B";
      StripConcat("M", "B");
      StripOne('M'); StripOne('B');
    }
  }
}
