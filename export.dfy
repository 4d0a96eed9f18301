/**
 * The format choice of SaveImage: the token typed in the format dialog is
 * trimmed and lower-cased; "jpg" and "jpeg" select JPEG with extension
 * "jpg", anything else selects PNG with extension "png".
 */
module Export {

  datatype ImageFormat = Png | Jpeg

  datatype FormatChoice = FormatChoice(format: ImageFormat, ext: string)

  /** .NET Char.IsWhiteSpace: the Unicode space, line and paragraph separators and U+0009..U+000D, U+0085. */
  predicate IsWhiteSpace(c: char)
  {
    || '\U{9}' <= c <= '\U{D}' || c == ' ' || c == '\U{85}' || c == '\U{A0}'
    || c == '\U{1680}' || '\U{2000}' <= c <= '\U{200A}' || c == '\U{2028}' || c == '\U{2029}'
    || c == '\U{202F}' || c == '\U{205F}' || c == '\U{3000}'
  }

  /** s[lo..hi] is all white space, stated on the indices of `s` itself. */
  predicate WhiteBetween(s: string, lo: int, hi: int)
    requires 0 <= lo <= hi <= |s|
  {
    forall k :: lo <= k < hi ==> IsWhiteSpace(s[k])
  }

  predicate AllWhiteSpace(s: string)
  {
    WhiteBetween(s, 0, |s|)
  }

  /** The first index at or after `i` whose character is not white space, or |s|. */
  function SkipWhite(s: string, i: nat): (j: nat)
    requires i <= |s|
    ensures i <= j <= |s| && WhiteBetween(s, i, j)
    ensures j < |s| ==> !IsWhiteSpace(s[j])
    decreases |s| - i
  {
    if i < |s| && IsWhiteSpace(s[i]) then SkipWhite(s, i + 1) else i
  }

  /** The end of s[lo..j] once its trailing white space is dropped. */
  function BackWhite(s: string, lo: nat, j: nat): (e: nat)
    requires lo <= j <= |s|
    ensures lo <= e <= j && WhiteBetween(s, e, j)
    ensures e > lo ==> !IsWhiteSpace(s[e - 1])
    decreases j
  {
    if j > lo && IsWhiteSpace(s[j - 1]) then BackWhite(s, lo, j - 1) else j
  }

  /**
   * String.Trim(): skip the leading white space, then drop the trailing
   * white space of what is left. The result is the infix of `s` that
   * neither starts nor ends with white space, with only white space
   * around it, and it is empty exactly when `s` is all white space.
   */
  function Trim(s: string): (r: string)
    ensures var i := SkipWhite(s, 0);
            && i + |r| <= |s| && r == s[i..i + |r|]
            && WhiteBetween(s, 0, i) && WhiteBetween(s, i + |r|, |s|)
    ensures r != [] ==> !IsWhiteSpace(r[0]) && !IsWhiteSpace(r[|r| - 1])
    ensures r == [] <==> AllWhiteSpace(s)
  {
    var i := SkipWhite(s, 0);
    var j := BackWhite(s, i, |s|);
    s[i..j]
  }

  /** SkipWhite is pinned down by its contract: the first non-white index from `i`. */
  lemma SkipWhiteIs(s: string, i: nat, m: nat)
    requires i <= m <= |s| && WhiteBetween(s, i, m)
    requires m < |s| ==> !IsWhiteSpace(s[m])
    ensures SkipWhite(s, i) == m
  {
  }

  /** BackWhite is pinned down by its contract. */
  lemma BackWhiteIs(s: string, lo: nat, j: nat, m: nat)
    requires lo <= m <= j <= |s| && WhiteBetween(s, m, j)
    requires m > lo ==> !IsWhiteSpace(s[m - 1])
    ensures BackWhite(s, lo, j) == m
  {
  }

  /**
   * An ASCII-only approximation of String.ToLower() on one character:
   * A..Z map to a..z and every other character is kept.
   */
  function LowerChar(c: char): char
  {
    if 'A' <= c <= 'Z' then (c as int + 32) as char else c
  }

  /** String.ToLower(), character by character. */
  function ToLower(s: string): (r: string)
    ensures |r| == |s|
    ensures forall k :: 0 <= k < |r| ==> !('A' <= r[k] <= 'Z')
    ensures forall k :: 0 <= k < |s| && !('A' <= s[k] <= 'Z') ==> r[k] == s[k]
    ensures forall k :: 0 <= k < |s| && 'A' <= s[k] <= 'Z' ==> 'a' <= r[k] <= 'z' && r[k] as int - 'a' as int == s[k] as int - 'A' as int
  {
    seq(|s|, k requires 0 <= k < |s| => LowerChar(s[k]))
  }

  /** The token as SaveImage compares it. */
  function Normalize(token: string): string
  {
    ToLower(Trim(token))
  }

  /** SaveImage's choice of encoder and file extension. */
  function ChooseFormat(token: string): FormatChoice
  {
    var t := Normalize(token);
    if t == "jpg" || t == "jpeg" then FormatChoice(Jpeg, "jpg") else FormatChoice(Png, "png")
  }

  /** `token` is `word` with white space around it, and `word` spells "jpg" or "jpeg" in some letter case. */
  predicate PaddedJpegSpelling(token: string, pre: string, word: string, post: string)
  {
    && token == pre + word + post && AllWhiteSpace(pre) && AllWhiteSpace(post)
    && (ToLower(word) == "jpg" || ToLower(word) == "jpeg")
  }

  /**
   * JPEG with extension "jpg" is chosen exactly for the padded, case-varied
   * spellings of "jpg" and "jpeg"; every other token gets PNG with "png".
   */
  lemma JpegExactlyForSpellings(token: string)
    ensures ChooseFormat(token) == FormatChoice(Jpeg, "jpg")
            <==> exists pre, word, post :: PaddedJpegSpelling(token, pre, word, post)
    ensures ChooseFormat(token) != FormatChoice(Jpeg, "jpg") ==> ChooseFormat(token) == FormatChoice(Png, "png")
  {
    if ChooseFormat(token) == FormatChoice(Jpeg, "jpg") {
      var word := Trim(token);
      var i := SkipWhite(token, 0);
      var pre := token[..i];
      var post := token[i + |word|..];
      assert token == pre + word + post;
      assert AllWhiteSpace(pre) by {
        forall k | 0 <= k < |pre| ensures IsWhiteSpace(pre[k]) {
          assert pre[k] == token[k];
        }
      }
      assert AllWhiteSpace(post) by {
        forall k | 0 <= k < |post| ensures IsWhiteSpace(post[k]) {
          assert post[k] == token[i + |word| + k];
        }
      }
      assert PaddedJpegSpelling(token, pre, word, post);
    }
    if exists pre, word, post :: PaddedJpegSpelling(token, pre, word, post) {
      var pre, word, post :| PaddedJpegSpelling(token, pre, word, post);
      JpegSpellings(pre, word, post);
    }
  }

  /** A token with no white space at either end is kept as it is by Trim. */
  lemma TrimKeepsWord(s: string)
    requires s != [] && !IsWhiteSpace(s[0]) && !IsWhiteSpace(s[|s| - 1])
    ensures Trim(s) == s
  {
    SkipWhiteIs(s, 0, 0);
    BackWhiteIs(s, 0, |s|, |s|);
    assert s[0..|s|] == s;
  }

  lemma NormalPng() ensures Normalize("png") == "png" { TrimKeepsWord("png"); }
  lemma NormalJpg() ensures Normalize("jpg") == "jpg" { TrimKeepsWord("jpg"); }
  lemma NormalGif() ensures Normalize("gif") == "gif" { TrimKeepsWord("gif"); }

  lemma NormalJpeg() ensures Normalize("jpeg") == "jpeg" { TrimKeepsWord("jpeg"); }

  /** The dialog's default text "png", and other tokens typed as they are. */
  lemma ChoiceExamples()
    ensures ChooseFormat("png") == FormatChoice(Png, "png")
    ensures ChooseFormat("jpg") == FormatChoice(Jpeg, "jpg")
    ensures ChooseFormat("jpeg") == FormatChoice(Jpeg, "jpg")
    ensures ChooseFormat("gif") == FormatChoice(Png, "png")
  {
    NormalPng();
    NormalJpg();
    NormalJpeg();
    NormalGif();
  }

  /**
   * Any spelling of "jpg" or "jpeg", in any letter case and with any white
   * space around it, selects JPEG.
   */
  lemma JpegSpellings(pre: string, word: string, post: string)
    requires AllWhiteSpace(pre) && AllWhiteSpace(post)
    requires ToLower(word) == "jpg" || ToLower(word) == "jpeg"
    ensures ChooseFormat(pre + word + post) == FormatChoice(Jpeg, "jpg")
  {
    PaddingIsIgnored(pre, word, post);
    LowerIdempotent(word);
    CaseIsIgnored(word, ToLower(word));
    ChoiceExamples();
  }

  /** The file extension written, typed back into the dialog, selects the same format again. */
  lemma ExtensionReselectsFormat(token: string)
    ensures ChooseFormat(ChooseFormat(token).ext) == ChooseFormat(token)
  {
    NormalPng();
    NormalJpg();
  }

  /** Leading white space in front of a token is exactly what Trim removes there. */
  lemma TrimSkipsPrefix(pre: string, s: string)
    requires AllWhiteSpace(pre)
    ensures Trim(pre + s) == Trim(s)
  {
    var u := pre + s;
    var n := |pre|;
    var i := SkipWhite(s, 0);
    var j := BackWhite(s, i, |s|);
    assert WhiteBetween(u, 0, n + i) by {
      forall k | 0 <= k < n + i ensures IsWhiteSpace(u[k]) {
        if k >= n {
          assert u[n + (k - n)] == s[k - n];
        }
      }
    }
    SkipWhiteIs(u, 0, n + i);
    assert WhiteBetween(u, n + j, |u|) by {
      forall k | n + j <= k < |u| ensures IsWhiteSpace(u[k]) {
        assert u[n + (k - n)] == s[k - n];
      }
    }
    BackWhiteIs(u, n + i, |u|, n + j);
    assert u[n + i..n + j] == s[i..j];
  }

  /** Trailing white space after a token is exactly what Trim removes there. */
  lemma TrimSkipsSuffix(s: string, post: string)
    requires AllWhiteSpace(post)
    ensures Trim(s + post) == Trim(s)
  {
    var u := s + post;
    var i := SkipWhite(s, 0);
    assert WhiteBetween(u, |s|, |u|) by {
      forall k | |s| <= k < |u| ensures IsWhiteSpace(u[k]) {
        assert u[|s| + (k - |s|)] == post[k - |s|];
      }
    }
    if i == |s| {
      SkipWhiteIs(u, 0, |u|);
    } else {
      var j := BackWhite(s, i, |s|);
      SkipWhiteIs(u, 0, i);
      BackWhiteIs(u, i, |u|, j);
      assert u[i..j] == s[i..j];
    }
  }

  /** White space around a token is exactly what Trim removes. */
  lemma TrimIgnoresPadding(pre: string, token: string, post: string)
    requires AllWhiteSpace(pre) && AllWhiteSpace(post)
    ensures Trim(pre + token + post) == Trim(token)
  {
    assert pre + token + post == pre + (token + post);
    TrimSkipsPrefix(pre, token + post);
    TrimSkipsSuffix(token, post);
  }

  /** White space typed around the token does not change which format is chosen. */
  lemma PaddingIsIgnored(pre: string, token: string, post: string)
    requires AllWhiteSpace(pre) && AllWhiteSpace(post)
    ensures ChooseFormat(pre + token + post) == ChooseFormat(token)
  {
    TrimIgnoresPadding(pre, token, post);
  }

  lemma LowerKeepsWhiteSpace(c: char)
    ensures IsWhiteSpace(LowerChar(c)) == IsWhiteSpace(c)
  {
  }

  /** Lower-casing never creates or removes white space, so it commutes with Trim. */
  lemma TrimCommutesWithLower(s: string)
    ensures Trim(ToLower(s)) == ToLower(Trim(s))
  {
    var low := ToLower(s);
    forall k | 0 <= k < |s| ensures IsWhiteSpace(low[k]) == IsWhiteSpace(s[k]) {
      LowerKeepsWhiteSpace(s[k]);
    }
    var i := SkipWhite(s, 0);
    var j := BackWhite(s, i, |s|);
    SkipWhiteIs(low, 0, i);
    BackWhiteIs(low, i, |s|, j);
    assert low[i..j] == ToLower(s[i..j]);
  }

  /** Tokens that agree up to letter case choose the same format. */
  lemma CaseIsIgnored(a: string, b: string)
    requires ToLower(a) == ToLower(b)
    ensures ChooseFormat(a) == ChooseFormat(b)
  {
    TrimCommutesWithLower(a);
    TrimCommutesWithLower(b);
    LowerIdempotent(Trim(a));
    LowerIdempotent(Trim(b));
  }

  lemma LowerIdempotent(s: string)
    ensures ToLower(ToLower(s)) == ToLower(s)
  {
  }
}
