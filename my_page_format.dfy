/**
 * The two module-level helpers of the page: name masking (a privacy redaction of
 * a person's name) and the rendering of a five-character student
 * ID as a grade / class / number label.
 */
module MyPageFormat {
  import opened Wrappers
  import opened JsStrings

  // ---------------------------------------------------------------- maskName

  /**
   * `maskName(name)`: `""` for an absent or empty name, the name itself when
   * it has one character, otherwise the first character followed by stars,
   * keeping the last character too once there are at least three.
   */
  function MaskName(name: Option<string>): (r: string)
    ensures name.None? || name.value == [] ==> r == []
    ensures name.Some? && |name.value| == 1 ==> r == name.value
    ensures name.Some? && |name.value| == 2 ==> r == [name.value[0], '*']
    ensures name.Some? ==> |r| == |name.value|
    ensures name.Some? && |name.value| >= 3 ==>
              r[0] == name.value[0] && r[|r| - 1] == name.value[|r| - 1] &&
              forall i :: 0 < i < |r| - 1 ==> r[i] == '*'
  {
    if name.None? || name.value == [] then ""
    else if |name.value| <= 1 then name.value
    else if |name.value| == 2 then [name.value[0]] + "*"
    else
      var firstChar := name.value[0];
      var lastChar := name.value[|name.value| - 1];
      [firstChar] + Repeat('*', |name.value| - 2) + [lastChar]
  }

  /** Position `i` of a name of length `n` is shown in clear by the mask. */
  predicate Revealed(n: nat, i: nat) {
    i == 0 || (n >= 3 && i == n - 1)
  }

  /**
   * Reference definition of a mask, position by position: same length, the
   * revealed positions copied, every other position a star.
   */
  ghost predicate IsMaskOf(r: string, s: string) {
    |r| == |s| &&
    forall i :: 0 <= i < |s| ==> r[i] == (if Revealed(|s|, i) then s[i] else '*')
  }

  /** For every present name, `MaskName` computes exactly the mask of the reference definition. */
  lemma MaskNameIsTheMask(s: string, r: string)
    ensures MaskName(Some(s)) == r <==> IsMaskOf(r, s)
  {
  }

  /**
   * The mask shows nothing but the length, the first character and (from
   * three characters on) the last one: names agreeing on these mask alike.
   */
  lemma MaskNameRevealsOnlyEnds(s: string, t: string)
    requires |s| == |t| && s != []
    requires s[0] == t[0]
    requires |s| >= 3 ==> s[|s| - 1] == t[|t| - 1]
    ensures MaskName(Some(s)) == MaskName(Some(t))
  {
  }

  /** Masking an already masked name changes nothing. */
  lemma MaskNameIdempotent(name: Option<string>)
    ensures MaskName(Some(MaskName(name))) == MaskName(name)
  {
  }

  // --------------------------------------------------------- formatStudentId

  const GradeSuffix := "학년 "
  const ClassSuffix := "반 "
  const NumberSuffix := "번"

  /** The three parts of a student ID: grade, class and number within the class. */
  datatype StudentIdParts = StudentIdParts(grade: string, classNum: string, number: string)

  predicate WellSized(p: StudentIdParts) {
    |p.grade| == 1 && |p.classNum| == 2 && |p.number| == 2
  }

  /** `studentId[0]`, `studentId.substring(1, 3)`, `studentId.substring(3)`. */
  function SplitStudentId(id: string): (p: StudentIdParts)
    requires |id| == 5
    ensures WellSized(p)
    ensures p.grade + p.classNum + p.number == id
  {
    StudentIdParts(id[..1], id[1..3], id[3..])
  }

  /** Splitting the concatenation of well-sized parts gives the parts back. */
  lemma SplitJoin(p: StudentIdParts)
    requires WellSized(p)
    ensures SplitStudentId(p.grade + p.classNum + p.number) == p
  {
  }

  /**
   * `formatStudentId(id)`: an absent ID, or one whose length is not 5, comes
   * back unchanged; a five-character ID becomes "{g}학년 {cc}반 {nn}번".
   */
  function FormatStudentId(id: Option<string>): (r: Option<string>)
    ensures id.None? || |id.value| != 5 ==> r == id
    ensures id.Some? && |id.value| == 5 ==> r.Some? && |r.value| == 11
  {
    if id.None? || id.value == [] || |id.value| != 5 then id
    else
      var p := SplitStudentId(id.value);
      Some(p.grade + GradeSuffix + p.classNum + ClassSuffix + p.number + NumberSuffix)
  }

  /** Reads a label of the shape "{g}학년 {cc}반 {nn}번" back into the five-character ID. */
  function ParseStudentIdLabel(text: string): (r: Option<string>)
    ensures r.Some? ==> |r.value| == 5
  {
    if |text| == 11 && text[1..4] == GradeSuffix && text[6..8] == ClassSuffix
       && text[10..] == NumberSuffix
    then Some(text[..1] + text[4..6] + text[8..10])
    else None
  }

  /** A formatted five-character ID reads back as that ID. */
  lemma ParseFormatted(id: string)
    requires |id| == 5
    ensures ParseStudentIdLabel(FormatStudentId(Some(id)).value) == Some(id)
  {
    var text := FormatStudentId(Some(id)).value;
    assert text == id[..1] + GradeSuffix + id[1..3] + ClassSuffix + id[3..] + NumberSuffix;
    assert text[..1] == id[..1] && text[4..6] == id[1..3] && text[8..10] == id[3..];
    assert text[1..4] == GradeSuffix && text[6..8] == ClassSuffix && text[10..] == NumberSuffix;
    assert id == id[..1] + id[1..3] + id[3..];
  }

  /** Every label the parser accepts is the formatting of the ID it reads. */
  lemma FormatParsed(text: string)
    requires ParseStudentIdLabel(text).Some?
    ensures FormatStudentId(ParseStudentIdLabel(text)) == Some(text)
  {
    var id := ParseStudentIdLabel(text).value;
    assert id[..1] == text[..1] && id[1..3] == text[4..6] && id[3..] == text[8..10];
    assert text == text[..1] + text[1..4] + text[4..6] + text[6..8] + text[8..10] + text[10..];
  }

  /** Distinct five-character IDs get distinct labels. */
  lemma FormatStudentIdInjective(a: string, b: string)
    requires |a| == 5 && |b| == 5
    requires FormatStudentId(Some(a)) == FormatStudentId(Some(b))
    ensures a == b
  {
    ParseFormatted(a);
    ParseFormatted(b);
  }

  /** A label (eleven characters) is passed through, so formatting twice is formatting once. */
  lemma FormatStudentIdIdempotent(id: Option<string>)
    ensures FormatStudentId(FormatStudentId(id)) == FormatStudentId(id)
  {
  }
}
