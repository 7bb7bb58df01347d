// The copy of a configuration file that squeezes runs of blanks before it is parsed.
module Squeeze {
  import opened Words

  const BLANK: U8 := 32

  // What fputc writes when getc has returned EOF.
  const EOF_BYTE: U8 := 255

  predicate EndsBlank(s: seq<U8>) {
    s != [] && s[|s| - 1] == BLANK
  }

  // Every run of blanks shortened to one.
  function Squeezed(s: seq<U8>): seq<U8> {
    if s == [] then []
    else
      var n := |s| - 1;
      if s[n] == BLANK && EndsBlank(s[..n]) then Squeezed(s[..n]) else Squeezed(s[..n]) + [s[n]]
  }

  lemma SqueezedNext(s: seq<U8>, i: nat)
    requires i < |s|
    ensures Squeezed(s[..i + 1])
            == Squeezed(s[..i]) + if s[i] == BLANK && EndsBlank(s[..i]) then [] else [s[i]]
  {
    assert s[..i + 1][..i] == s[..i];
  }

  // The copying loop of validate_mon_activity_params.
  method Copy(s: seq<U8>) returns (copy: seq<U8>)
    ensures copy == Squeezed(s) + if EndsBlank(s) then [EOF_BYTE] else []
  {
    copy := [];
    var i := 0;
    while i < |s|
      invariant 0 <= i <= |s|
      invariant copy == Squeezed(s[..i])
      invariant !EndsBlank(s[..i])
    {
      var p := s[i];
      SqueezedNext(s, i);
      i := i + 1;
      copy := copy + [p];
      if p == BLANK {
        while i < |s| && s[i] == BLANK
          invariant 0 < i <= |s| && EndsBlank(s[..i]) && copy == Squeezed(s[..i])
        {
          SqueezedNext(s, i);
          i := i + 1;
        }
        if i < |s| {
          SqueezedNext(s, i);
          copy := copy + [s[i]];
          i := i + 1;
        } else {
          assert s[..i] == s;
          return copy + [EOF_BYTE];
        }
      }
    }
    assert s[..i] == s;
  }

  // ---------- what the copy keeps ----------

  ghost predicate NoDoubleBlanks(s: seq<U8>) {
    forall i :: 0 < i < |s| ==> s[i - 1] != BLANK || s[i] != BLANK
  }

  // The words between the blanks, empty ones left out.
  function Fields(s: seq<U8>): (w: seq<seq<U8>>)
    ensures s != [] && s[|s| - 1] != BLANK ==> |w| >= 1
  {
    if s == [] then []
    else
      var n := |s| - 1;
      var w := Fields(s[..n]);
      if s[n] == BLANK then w
      else if n == 0 || s[n - 1] == BLANK then w + [[s[n]]]
      else w[..|w| - 1] + [w[|w| - 1] + [s[n]]]
  }

  // No two blanks in a row are left, and the text begins and ends as before.
  lemma {:induction false} SqueezedShape(s: seq<U8>)
    ensures NoDoubleBlanks(Squeezed(s))
    ensures var q := Squeezed(s);
            (q == [] <==> s == []) && (s != [] ==> q[0] == s[0] && q[|q| - 1] == s[|s| - 1])
  {
    if s != [] {
      SqueezedShape(s[..|s| - 1]);
    }
  }

  // Nothing but runs of blanks is shortened: the words are the same.
  lemma {:induction false} SqueezedWords(s: seq<U8>)
    ensures Fields(Squeezed(s)) == Fields(s)
  {
    if s != [] {
      var n := |s| - 1;
      SqueezedWords(s[..n]);
      SqueezedShape(s[..n]);
      if !(s[n] == BLANK && EndsBlank(s[..n])) {
        var q := Squeezed(s[..n]);
        assert (q + [s[n]])[..|q|] == q;
      }
    }
  }

  // Squeezing changes exactly the texts with two blanks in a row.
  lemma {:induction false} SqueezedSameIff(s: seq<U8>)
    ensures Squeezed(s) == s <==> NoDoubleBlanks(s)
    ensures |Squeezed(s)| <= |s|
  {
    hide NoDoubleBlanks, EndsBlank;
    if s == [] {
      NothingDouble();
    } else {
      var n := |s| - 1;
      var t, c, q := s[..n], s[n], Squeezed(s[..n]);
      SqueezedSameIff(t);
      OneMore(t, c);
      assert s == t + [c];
      SameOneMore(q, t, c);
    }
  }

  lemma NothingDouble()
    ensures NoDoubleBlanks([])
  {
  }

  lemma OneMore(t: seq<U8>, c: U8)
    ensures NoDoubleBlanks(t + [c]) <==> NoDoubleBlanks(t) && !(c == BLANK && EndsBlank(t))
  {
    var s, n := t + [c], |t|;
    assert forall i :: 0 <= i < n ==> s[i] == t[i];
    assert s[n] == c && (n > 0 ==> s[n - 1] == t[n - 1]);
  }

  lemma SameOneMore(q: seq<U8>, t: seq<U8>, c: U8)
    ensures q + [c] == t + [c] <==> q == t
  {
    assert (q + [c])[..|q|] == q && (t + [c])[..|t|] == t;
  }

  lemma SqueezedTwice(s: seq<U8>)
    ensures Squeezed(Squeezed(s)) == Squeezed(s)
  {
    SqueezedShape(s);
    SqueezedSameIff(Squeezed(s));
  }

  // The copy is the squeezed text exactly when the file does not end in a blank.
  lemma CopyIsSqueezedIff(s: seq<U8>, copy: seq<U8>)
    requires copy == Squeezed(s) + if EndsBlank(s) then [EOF_BYTE] else []
    ensures copy == Squeezed(s) <==> s == [] || s[|s| - 1] != ' ' as int
    ensures copy != Squeezed(s) ==> Fields(copy) == Fields(s) + [[255]]
  {
    if EndsBlank(s) {
      SqueezedShape(s);
      SqueezedWords(s);
      assert |copy| == |Squeezed(s)| + 1;
      assert copy[..|copy| - 1] == Squeezed(s);
    }
  }
}
