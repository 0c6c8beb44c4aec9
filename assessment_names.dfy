/**
 * The name canonicaliser of app/update_test_queries.py and the top-3 step
 * that turns a run's recommendations into ground truth. Lowercasing is
 * ASCII only and stripping removes the ASCII characters Python counts as
 * whitespace.
 */
module AssessmentNames {
  import opened Entries

  predicate IsUpper(c: char) {
    'A' <= c <= 'Z'
  }

  /** ASCII whitespace as str.strip() removes it: space, \t \n \v \f \r and \x1c-\x1f. */
  predicate IsWhitespace(c: char) {
    c == ' ' || 9 <= c as int <= 13 || 28 <= c as int <= 31
  }

  function LowerChar(c: char): char {
    if IsUpper(c) then (c as int + 32) as char else c
  }

  /** str.lower() on ASCII letters. */
  function Lower(s: string): (t: string)
    ensures |t| == |s|
  {
    seq(|s|, i requires 0 <= i < |s| => LowerChar(s[i]))
  }

  /** str.lstrip(): drop leading whitespace. */
  function StripLeft(s: string): string {
    if s != [] && IsWhitespace(s[0]) then StripLeft(s[1..]) else s
  }

  /** str.rstrip(): drop trailing whitespace. */
  function StripRight(s: string): string {
    if s != [] && IsWhitespace(s[|s| - 1]) then StripRight(s[..|s| - 1]) else s
  }

  /** str.strip(). */
  function Strip(s: string): string {
    StripRight(StripLeft(s))
  }

  /** str.replace(" ", "-"). */
  function ReplaceSpaces(s: string): (t: string)
    ensures |t| == |s|
  {
    seq(|s|, i requires 0 <= i < |s| => if s[i] == ' ' then '-' else s[i])
  }

  /**
   * Lowercase, strip, then turn every remaining space into a hyphen. The
   * result is canonical: no space, no capital, no whitespace at either end.
   */
  function NormalizeName(s: string): (r: string)
    ensures Canonical(r)
  {
    NormalizationStepsCanonical(s);
    ReplaceSpaces(Strip(Lower(s)))
  }

  /**
   * normalize_assessment_name: an entry normalises as the name the scorers
   * read from it, so a record as its name field, or "" when it has none.
   */
  function NormalizeAssessmentName(e: Entry): (r: string)
    ensures r == NormalizeName(NameOf(e))
    ensures Canonical(r)
  {
    match e
    case Name(s) => NormalizeName(s)
    case Record(field) => NormalizeName(field.GetOr(""))
  }

  /**
   * The new relevant list: the normalised names of the first three
   * recommendations (all of them when there are fewer), in order.
   */
  function TopThreeRelevant(recs: seq<Entry>): (r: seq<string>)
    ensures |r| == if |recs| < 3 then |recs| else 3
    ensures forall i :: 0 <= i < |r| ==> r[i] == NormalizeAssessmentName(recs[i]) && Canonical(r[i])
  {
    var top := if |recs| <= 3 then recs else recs[..3];
    seq(|top|, i requires 0 <= i < |top| => NormalizeAssessmentName(top[i]))
  }

  /**
   * A query's relevant list is replaced only when the run returned
   * recommendations; it then holds between one and three canonical names.
   */
  function UpdatedRelevant(current: seq<string>, recs: seq<Entry>): (r: seq<string>)
    ensures recs == [] ==> r == current
    ensures recs != [] ==> |r| == (if |recs| < 3 then |recs| else 3) && forall i :: 0 <= i < |r| ==> r[i] == NormalizeAssessmentName(recs[i])
  {
    if recs != [] then TopThreeRelevant(recs) else current
  }

  /** The shape of a canonical name: no space, no capital, no whitespace at either end. */
  predicate Canonical(s: string) {
    && (forall i :: 0 <= i < |s| ==> s[i] != ' ' && !IsUpper(s[i]))
    && (s != [] ==> !IsWhitespace(s[0]) && !IsWhitespace(s[|s| - 1]))
  }

  // ------------------------------------------------------------- lemmas

  lemma {:induction false} StripLeftShape(s: string)
    ensures var t := StripLeft(s);
      (forall c :: c in t ==> c in s) && (t != [] ==> !IsWhitespace(t[0]))
  {
    if s != [] && IsWhitespace(s[0]) {
      StripLeftShape(s[1..]);
    }
  }

  lemma {:induction false} StripRightShape(s: string)
    ensures var t := StripRight(s);
      |t| <= |s| && t == s[..|t|] && (forall c :: c in t ==> c in s)
      && (t != [] ==> !IsWhitespace(t[|t| - 1]))
  {
    if s != [] && IsWhitespace(s[|s| - 1]) {
      StripRightShape(s[..|s| - 1]);
    }
  }

  /** Stripping keeps only characters of the input and leaves no whitespace at either end. */
  lemma StripShape(s: string)
    ensures var t := Strip(s);
      (forall c :: c in t ==> c in s)
      && (t != [] ==> !IsWhitespace(t[0]) && !IsWhitespace(t[|t| - 1]))
  {
    var l := StripLeft(s);
    StripLeftShape(s);
    StripRightShape(l);
    var t := StripRight(l);
    if t != [] {
      assert t[0] == l[0];
    }
  }

  /** The three normalisation steps together leave a canonical name. */
  lemma NormalizationStepsCanonical(s: string)
    ensures Canonical(ReplaceSpaces(Strip(Lower(s))))
  {
    var lowered := Lower(s);
    var stripped := Strip(lowered);
    StripShape(lowered);
    var t := ReplaceSpaces(stripped);
    forall k | 0 <= k < |t|
      ensures t[k] != ' ' && !IsUpper(t[k])
    {
      assert stripped[k] in lowered;
    }
  }

  /** Each step leaves a canonical name as it is. */
  lemma {:induction false} StripOfCanonical(s: string)
    requires s == [] || (!IsWhitespace(s[0]) && !IsWhitespace(s[|s| - 1]))
    ensures Strip(s) == s
  {
  }

  /** Normalising twice is normalising once. */
  lemma NormalizeNameIdempotent(s: string)
    ensures NormalizeName(NormalizeName(s)) == NormalizeName(s)
  {
    var t := NormalizeName(s);
    assert Lower(t) == t;
    StripOfCanonical(t);
    assert ReplaceSpaces(t) == t;
  }

  /**
   * A record normalises as its name field, and a record without one as the
   * empty name: a corollary of the first ensures of NormalizeAssessmentName.
   */
  lemma RecordNormalizesAsItsName(s: string)
    ensures NormalizeAssessmentName(Record(Some(s))) == NormalizeAssessmentName(Name(s))
    ensures NormalizeAssessmentName(Record(None)) == ""
  {
  }

  /** Upper case and surrounding blanks go, an inner space becomes a hyphen. */
  lemma NormalizeExample()
    ensures NormalizeName(" Java Test ") == "java-test"
  {
    var lowered := Lower(" Java Test ");
    assert lowered == " java test ";
    var inner := lowered[1..|lowered| - 1];
    assert inner == "java test";
    assert StripLeft(lowered) == lowered[1..];
    assert lowered[1..][..|lowered[1..]| - 1] == inner;
    assert StripRight(lowered[1..]) == inner;
  }
}
