/**
 * The upload gate of the web front end: a file name is accepted when the
 * text after its last dot, lower-cased, is one of the allowed extensions.
 */
module Upload {
  import opened Wrappers
  import opened Text

  const AllowedExtensions: set<string> := {"pdf", "txt"}

  /** The position of the last `.` in `s`, if any. */
  function LastDot(s: string): (r: Option<nat>)
    ensures r.None? <==> forall i :: 0 <= i < |s| ==> s[i] != '.'
    ensures r.Some? ==> r.value < |s| && s[r.value] == '.'
    ensures r.Some? ==> forall j :: r.value < j < |s| ==> s[j] != '.'
  {
    if s == [] then None
    else if s[|s| - 1] == '.' then Some(|s| - 1)
    else LastDot(s[..|s| - 1])
  }

  /** `filename.rsplit(".", 1)[1]`: everything after the last dot. */
  function Extension(filename: string): (ext: Option<string>)
    ensures ext.None? <==> forall i :: 0 <= i < |filename| ==> filename[i] != '.'
    ensures ext.Some? ==> forall j :: 0 <= j < |ext.value| ==> ext.value[j] != '.'
    ensures ext.Some? ==> |ext.value| < |filename| && ext.value == filename[|filename| - |ext.value|..]
    ensures ext.Some? ==> filename[|filename| - |ext.value| - 1] == '.'
  {
    match LastDot(filename)
    case None => None
    case Some(i) => Some(filename[i + 1..])
  }

  /** `allowed_file`. */
  function AllowedFile(filename: string): (ok: bool)
    ensures ok ==> exists i :: 0 <= i < |filename| && filename[i] == '.'
  {
    match Extension(filename)
    case None => false
    case Some(ext) => Lower(ext) in AllowedExtensions
  }

  /**
   * A name is accepted exactly when it splits as `stem + "." + ext` with no
   * dot in `ext` and `ext`, lower-cased, allowed; the stem may be anything,
   * including empty or dotted.
   */
  lemma AllowedFileIff(stem: string, ext: string)
    requires forall j :: 0 <= j < |ext| ==> ext[j] != '.'
    ensures AllowedFile(stem + "." + ext) <==> Lower(ext) in AllowedExtensions
  {
    var f := stem + "." + ext;
    var d := LastDot(f);
    assert f[|stem|] == '.';
    assert d.Some?;
    assert d.value == |stem|;
    assert f[|stem| + 1..] == ext;
  }

  /** The extension's case does not matter. */
  lemma UpperCaseAccepted()
    ensures AllowedFile("notes.TXT")
  {
    AllowedFileIff("notes", "TXT");
    assert "notes" + "." + "TXT" == "notes.TXT";
    assert Lower("TXT") == "txt";
  }

  /** Only the last extension counts. */
  lemma InnerExtensionIgnored()
    ensures !AllowedFile("report.pdf.exe")
  {
    AllowedFileIff("report.pdf", "exe");
    assert "report.pdf" + "." + "exe" == "report.pdf.exe";
    assert Lower("exe") == "exe";
  }
}
