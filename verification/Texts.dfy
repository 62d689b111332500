/** Trimming and duplicate removal, as Qt's trimmed() and removeDuplicates() do them. */
module Texts {

  /** QChar::isSpace and the byte version, on the ASCII range. */
  predicate IsSpace(c: char) { c == ' ' || '\t' <= c <= '\r' }

  function TrimmedLeft(s: string): (t: string)
    ensures |t| <= |s| && t == s[|s| - |t|..]
    ensures t == "" || !IsSpace(t[0])
    ensures forall i :: 0 <= i < |s| - |t| ==> IsSpace(s[i])
  {
    if s == "" || !IsSpace(s[0]) then s else TrimmedLeft(s[1..])
  }

  function TrimmedRight(s: string): (t: string)
    ensures t <= s
    ensures t == "" || !IsSpace(t[|t| - 1])
    ensures forall i :: |t| <= i < |s| ==> IsSpace(s[i])
  {
    if s == "" || !IsSpace(s[|s| - 1]) then s else TrimmedRight(s[..|s| - 1])
  }

  function Trimmed(s: string): (t: string)
    ensures |t| <= |s|
    ensures t == "" || (!IsSpace(t[0]) && !IsSpace(t[|t| - 1]))
  {
    TrimmedRight(TrimmedLeft(s))
  }

  lemma {:induction false} LeftIsPart(s: string, c: char)
    ensures c in TrimmedLeft(s) ==> c in s
    ensures TrimmedLeft(TrimmedLeft(s)) == TrimmedLeft(s)
  {
    if s != "" && IsSpace(s[0]) { LeftIsPart(s[1..], c); }
  }

  lemma {:induction false} RightIsPart(s: string, c: char)
    ensures c in TrimmedRight(s) ==> c in s
    ensures TrimmedRight(TrimmedRight(s)) == TrimmedRight(s)
    ensures TrimmedRight(s) != "" ==> TrimmedRight(s)[0] == s[0]
  {
    if s != "" && IsSpace(s[|s| - 1]) { RightIsPart(s[..|s| - 1], c); }
  }

  /** Trimming takes a stretch of the text and does nothing when repeated. */
  lemma TrimmedIsPart(s: string, c: char)
    ensures c in Trimmed(s) ==> c in s
    ensures Trimmed(Trimmed(s)) == Trimmed(s)
  {
    hide TrimmedRight;
    var t := TrimmedLeft(s);
    LeftIsPart(s, c);
    RightIsPart(t, c);
    assert TrimmedLeft(TrimmedRight(t)) == TrimmedRight(t);
  }

  /** The first occurrence of every element, in order. */
  function Distinct(s: seq<string>): (r: seq<string>)
    ensures forall x :: x in r <==> x in s
    ensures forall i, j :: 0 <= i < j < |r| ==> r[i] != r[j]
  {
    if s == [] then []
    else
      var init := Distinct(s[..|s| - 1]);
      if s[|s| - 1] in init then init else init + [s[|s| - 1]]
  }

  /** Trimming takes exactly the blanks of the C locale from both ends: the space and the codes 9 to 13. */
  lemma TrimmedOf(s: string)
    ensures Trimmed(s) == s <==>
            s == "" || (!(s[0] as int == 32 || 9 <= s[0] as int <= 13) &&
                        !(s[|s| - 1] as int == 32 || 9 <= s[|s| - 1] as int <= 13))
  {
    if s != "" {
      if IsSpace(s[0]) { assert |TrimmedLeft(s)| < |s|; }
      else if IsSpace(s[|s| - 1]) { assert TrimmedLeft(s) == s && |TrimmedRight(s)| < |s|; }
    }
  }
}
