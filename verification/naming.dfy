/**
 String handling of the runner: deriving the module name from the strategy
 file name (`rsplit('.', 1)[0]`) and lower-casing the confirmation answer.
 */
module Naming {
  import opened Base

  /** Position of the last `.` in `s`, if there is one. */
  function LastDot(s: string): (r: Option<nat>)
    ensures r.None? <==> '.' !in s
    ensures r.Some? ==> r.value < |s| && s[r.value] == '.' && '.' !in s[r.value + 1..]
    decreases |s|
  {
    if |s| == 0 then None
    else if s[|s| - 1] == '.' then Some(|s| - 1)
    else
      var rest := LastDot(s[..|s| - 1]);
      assert s == s[..|s| - 1] + [s[|s| - 1]];
      rest
  }

  /**
   The module name of a strategy file: everything from the last `.` on is
   dropped, and a name without `.` is kept whole.
   */
  function ModuleName(fileName: string): (r: string)
    ensures '.' !in fileName ==> r == fileName
    ensures '.' in fileName ==>
      |r| < |fileName| && r == fileName[..|r|] && fileName[|r|] == '.' && '.' !in fileName[|r| + 1..]
  {
    match LastDot(fileName)
    case None => fileName
    case Some(i) => fileName[..i]
  }

  /** Stripping an extension that holds no `.` gives back the stem, whatever the stem holds. */
  lemma {:induction false} ModuleNameStripsExtension(stem: string, ext: string)
    requires '.' !in ext
    ensures ModuleName(stem + "." + ext) == stem
  {
    var s := stem + "." + ext;
    assert s[|stem|] == '.' && s[|stem| + 1..] == ext;
  }

  /** The module name never contains more than the file name it came from. */
  lemma {:induction false} ModuleNameIsPrefix(fileName: string)
    ensures ModuleName(fileName) <= fileName
    ensures ModuleName(fileName) == fileName <==> '.' !in fileName
  {
    var r := ModuleName(fileName);
    if '.' in fileName {
      assert |r| < |fileName|;
    }
  }

  /** ASCII lower-casing of one character; every other character is kept. */
  function LowerChar(c: char): char {
    if 'A' <= c <= 'Z' then (c as int - 'A' as int + 'a' as int) as char else c
  }

  /** `str.lower()` on the confirmation answer, restricted to ASCII letters. */
  function Lower(s: string): (r: string)
    ensures |r| == |s|
    ensures forall i :: 0 <= i < |r| ==> !('A' <= r[i] <= 'Z')
    ensures forall i :: 0 <= i < |s| && !('A' <= s[i] <= 'Z') ==> r[i] == s[i]
    ensures forall i :: 0 <= i < |s| && 'A' <= s[i] <= 'Z' ==> r[i] as int == s[i] as int + 32
  {
    seq(|s|, i requires 0 <= i < |s| => LowerChar(s[i]))
  }

  /** The live-run gate: the answer, lower-cased, is exactly `yes`. */
  function Confirms(response: string): (b: bool)
    ensures b ==> |response| == 3
    ensures response == "yes" ==> b
  {
    Lower(response) == "yes"
  }

  /**
   The gate accepts exactly the three-letter answers spelled y, e, s in any
   mix of cases: "YES" and "Yes" pass, " yes", "y" and "yes\n" do not.
   */
  lemma ConfirmsExactlyYesAnyCase(response: string)
    ensures Confirms(response) <==>
      |response| == 3 &&
      (response[0] == 'y' || response[0] == 'Y') &&
      (response[1] == 'e' || response[1] == 'E') &&
      (response[2] == 's' || response[2] == 'S')
  {
  }

  /** The answers the operator is most likely to type, each decided as the code decides it. */
  lemma ConfirmationExamples()
    ensures Confirms("yes") && Confirms("YES") && Confirms("Yes")
    ensures !Confirms(" yes") && !Confirms("y") && !Confirms("no") && !Confirms("yes ") && !Confirms("")
  {
    ConfirmsExactlyYesAnyCase("yes");
    ConfirmsExactlyYesAnyCase("YES");
    ConfirmsExactlyYesAnyCase("Yes");
    ConfirmsExactlyYesAnyCase(" yes");
    ConfirmsExactlyYesAnyCase("y");
    ConfirmsExactlyYesAnyCase("no");
    ConfirmsExactlyYesAnyCase("yes ");
    ConfirmsExactlyYesAnyCase("");
  }
}
