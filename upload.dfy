/** `allowed_file` (routers/verify.py): the upload extension check. */
module Upload {
  import opened Wrappers
  import opened Text

  const AllowedExtensions: set<string> := {"pdf", "docx", "doc"}

  /** The index of the last `.` in `s`, if there is one. */
  function LastDot(s: string): (r: Option<nat>)
    ensures r.Some? ==> r.value < |s| && s[r.value] == '.'
    ensures r.Some? ==> forall k :: r.value < k < |s| ==> s[k] != '.'
    ensures r.None? ==> forall k :: 0 <= k < |s| ==> s[k] != '.'
  {
    if s == [] then None
    else if s[|s| - 1] == '.' then Some(|s| - 1)
    else LastDot(s[..|s| - 1])
  }

  /** The text after the last dot, `filename.rsplit('.', 1)[1]`. */
  function Extension(filename: string): Option<string> {
    match LastDot(filename)
    case None => None
    case Some(i) => Some(filename[i + 1..])
  }

  /** `'.' in filename and ext.lower() in ALLOWED_EXTENSIONS`. Lower-casing
      ASCII letters only is exact here: no other character lower-cases to a
      letter of these extensions. */
  function AllowedFile(filename: string): bool {
    var ext := Extension(filename);
    ext.Some? && Lower(ext.value) in AllowedExtensions
  }

  /** A file is allowed exactly when it has a dot and what follows its last
      dot, lower-cased, is one of the allowed extensions. */
  lemma AllowedFileIff(filename: string)
    ensures AllowedFile(filename) <==>
      exists i :: 0 <= i < |filename| && filename[i] == '.'
                  && (forall k :: i < k < |filename| ==> filename[k] != '.')
                  && Lower(filename[i + 1..]) in AllowedExtensions
  {
    if i :| 0 <= i < |filename| && filename[i] == '.'
            && (forall k :: i < k < |filename| ==> filename[k] != '.')
            && Lower(filename[i + 1..]) in AllowedExtensions {
      LastDotIsTheLastDot(filename, i);
    }
  }

  /** A dot with no dot after it is the one `LastDot` finds. */
  lemma LastDotIsTheLastDot(s: string, i: nat)
    requires i < |s| && s[i] == '.'
    requires forall k :: i < k < |s| ==> s[k] != '.'
    ensures LastDot(s) == Some(i)
  {
  }

  /** Only the last extension counts. */
  lemma OnlyLastExtensionCounts()
    ensures !AllowedFile("a.pdf.exe")
    ensures AllowedFile("a.exe.PDF")
  {
    assert LastDot("a.pdf.exe") == Some(5) by {
      assert "a.pdf.exe"[..8] == "a.pdf.ex";
      assert "a.pdf.ex"[..7] == "a.pdf.e";
      assert "a.pdf.e"[..6] == "a.pdf.";
    }
    assert "a.pdf.exe"[6..] == "exe";
    assert LastDot("a.exe.PDF") == Some(5) by {
      assert "a.exe.PDF"[..8] == "a.exe.PD";
      assert "a.exe.PD"[..7] == "a.exe.P";
      assert "a.exe.P"[..6] == "a.exe.";
    }
    assert "a.exe.PDF"[6..] == "PDF";
    assert Lower("PDF") == "pdf";
  }

  /** An empty stem is fine; an empty extension or no dot at all is not. */
  lemma EdgeCases()
    ensures AllowedFile(".pdf")
    ensures !AllowedFile("file.")
    ensures !AllowedFile("pdf")
  {
    assert LastDot(".pdf") == Some(0) by {
      assert ".pdf"[..3] == ".pd";
      assert ".pd"[..2] == ".p";
      assert ".p"[..1] == ".";
    }
    assert ".pdf"[1..] == "pdf";
    assert Lower("pdf") == "pdf";
    assert LastDot("file.") == Some(4);
    assert "file."[5..] == "";
    assert LastDot("pdf") == None by {
      assert "pdf"[..2] == "pd";
      assert "pd"[..1] == "p";
      assert "p"[..0] == "";
    }
  }
}
