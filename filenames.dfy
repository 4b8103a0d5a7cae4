/** The server's file-name rules: which uploads are accepted, how the name
    of the converted file is derived, and how paths are joined and split. */
module FileNames {
  import opened Common

  /** The folder uploads are saved in and converted files are written to. */
  const UploadFolder: string := "uploads"

  /** The one allowed extension, compared after lower-casing. */
  const AllowedExtension: string := "xlsb"

  /** A name is accepted when it has a dot and the text after its last dot,
      lower-cased, is the allowed extension. */
  predicate AllowedFile(filename: string)
  {
    '.' in filename && ToLower(TailAfter(filename, '.')) == AllowedExtension
  }

  /** Accepted names are exactly those that end in a dot followed by four
      characters, none a dot, that lower-case to "xlsb". */
  lemma AllowedFileShape(filename: string)
    ensures AllowedFile(filename) <==>
      (|filename| >= 5 && filename[|filename| - 5] == '.' &&
       ToLower(filename[|filename| - 4..]) == AllowedExtension)
  {
    var n := |filename|;
    if AllowedFile(filename) {
      var r := TailAfter(filename, '.');
      TailAfterSpec(filename, '.');
      assert |r| == 4;
    }
    if n >= 5 && filename[n - 5] == '.' && ToLower(filename[n - 4..]) == AllowedExtension {
      var tail := filename[n - 4..];
      forall i | 0 <= i < 4 ensures tail[i] != '.' {
        LowerDot(tail[i]);
        assert ToLower(tail)[i] == AllowedExtension[i];
      }
      TailAfterUnique(filename, '.', 4);
      assert filename[n - 5] in filename;
    }
  }

  /** Python's `s.replace(pat, rep)`: every occurrence of `pat`, found left
      to right without overlap, is replaced by `rep`. */
  function ReplaceAll(s: string, pat: string, rep: string): string
    requires pat != []
    decreases |s|
  {
    if |s| < |pat| then s
    else if s[..|pat|] == pat then rep + ReplaceAll(s[|pat|..], pat, rep)
    else [s[0]] + ReplaceAll(s[1..], pat, rep)
  }

  /** Replacing with a text of the same length keeps the length. */
  lemma {:induction false} ReplaceAllLength(s: string, pat: string, rep: string)
    requires pat != [] && |rep| == |pat|
    ensures |ReplaceAll(s, pat, rep)| == |s|
    decreases |s|
  {
    if |s| < |pat| {
    } else if s[..|pat|] == pat {
      ReplaceAllLength(s[|pat|..], pat, rep);
    } else {
      ReplaceAllLength(s[1..], pat, rep);
    }
  }

  /** With nothing to replace, the text is returned unchanged. */
  lemma {:induction false} ReplaceAllWithoutOccurrence(s: string, pat: string, rep: string)
    requires pat != [] && !Occurs(s, pat)
    ensures ReplaceAll(s, pat, rep) == s
    decreases |s|
  {
    if |s| < |pat| {
    } else {
      assert !OccursAt(s, pat, 0);
      assert s[..|pat|] != pat;
      if Occurs(s[1..], pat) {
        var i :| 0 <= i <= |s[1..]| && OccursAt(s[1..], pat, i);
        assert s[i + 1..i + 1 + |pat|] == s[1..][i..i + |pat|];
        assert OccursAt(s, pat, i + 1);
        assert false;
      }
      ReplaceAllWithoutOccurrence(s[1..], pat, rep);
      assert s == [s[0]] + s[1..];
    }
  }

  /** The name the converted file is saved under: every ".xlsb" in the
      uploaded name becomes ".xlsx". The match is case-sensitive. */
  function OutputName(filename: string): (r: string)
    ensures |r| == |filename|
  {
    ReplaceAllLength(filename, ".xlsb", ".xlsx");
    ReplaceAll(filename, ".xlsb", ".xlsx")
  }

  /** The output name differs from the input only at the last letter of a
      ".xlsb" of the input, where the 'b' became an 'x'. */
  lemma {:induction false} OutputNameChangesOnlyExtensionLetter(filename: string)
    ensures var r := OutputName(filename);
      forall k :: 0 <= k < |filename| ==>
        r[k] == filename[k] || (4 <= k && OccursAt(filename, ".xlsb", k - 4) && r[k] == 'x')
    decreases |filename|
  {
    var s := filename;
    if |s| < 5 {
      assert ChangedOnlyAtXlsb(s, OutputName(s));
    } else if s[..5] == ".xlsb" {
      OutputNameChangesOnlyExtensionLetter(s[5..]);
      ChangedAfterReplaced(s, OutputName(s[5..]));
      assert OutputName(s) == ".xlsx" + OutputName(s[5..]);
    } else {
      OutputNameChangesOnlyExtensionLetter(s[1..]);
      ChangedAfterCopied(s, OutputName(s[1..]));
      assert OutputName(s) == [s[0]] + OutputName(s[1..]);
    }
  }

  /** `r` equals `s` except at the last letters of occurrences of ".xlsb"
      in `s`, which are 'x' in `r`. */
  predicate ChangedOnlyAtXlsb(s: string, r: string)
  {
    |r| == |s| &&
    forall k :: 0 <= k < |s| ==> r[k] == s[k] || (4 <= k && OccursAt(s, ".xlsb", k - 4) && r[k] == 'x')
  }

  /** An occurrence in a suffix is an occurrence in the whole text. */
  lemma OccursInSuffix(s: string, d: nat, pat: string, j: int)
    requires d <= |s| && OccursAt(s[d..], pat, j)
    ensures OccursAt(s, pat, j + d)
  {
    assert s[j + d..j + d + |pat|] == s[d..][j..j + |pat|];
  }

  lemma ChangedAfterReplaced(s: string, t: string)
    requires |s| >= 5 && s[..5] == ".xlsb"
    requires ChangedOnlyAtXlsb(s[5..], t)
    ensures ChangedOnlyAtXlsb(s, ".xlsx" + t)
  {
    var r := ".xlsx" + t;
    forall k | 0 <= k < |s| ensures r[k] == s[k] || (4 <= k && OccursAt(s, ".xlsb", k - 4) && r[k] == 'x') {
      if k >= 5 {
        assert r[k] == t[k - 5] && s[k] == s[5..][k - 5];
        if r[k] != s[k] {
          OccursInSuffix(s, 5, ".xlsb", k - 9);
        }
      } else if k < 4 {
        assert s[k] == s[..5][k];
      } else {
        assert OccursAt(s, ".xlsb", 0);
      }
    }
  }

  lemma ChangedAfterCopied(s: string, t: string)
    requires |s| >= 1
    requires ChangedOnlyAtXlsb(s[1..], t)
    ensures ChangedOnlyAtXlsb(s, [s[0]] + t)
  {
    var r := [s[0]] + t;
    forall k | 0 <= k < |s| ensures r[k] == s[k] || (4 <= k && OccursAt(s, ".xlsb", k - 4) && r[k] == 'x') {
      if k >= 1 {
        assert r[k] == t[k - 1] && s[k] == s[1..][k - 1];
        if r[k] != s[k] {
          OccursInSuffix(s, 1, ".xlsb", k - 5);
        }
      }
    }
  }

  /** No ".xlsb" is left in an output name. */
  lemma {:induction false} OutputNameHasNoXlsb(filename: string)
    ensures !Occurs(OutputName(filename), ".xlsb")
    decreases |filename|
  {
    var s := filename;
    var r := OutputName(s);
    if |s| < 5 {
    } else if s[..5] == ".xlsb" {
      var t := OutputName(s[5..]);
      OutputNameHasNoXlsb(s[5..]);
      assert r == ".xlsx" + t;
      forall i | 0 <= i <= |r| ensures !OccursAt(r, ".xlsb", i) {
        if i == 0 {
          assert r[4] != ".xlsb"[4];
        } else if i < 5 {
          assert r[i] != ".xlsb"[0];
        } else if i + 5 <= |r| {
          assert r[i..i + 5] == t[i - 5..i - 5 + 5];
          assert !OccursAt(t, ".xlsb", i - 5);
        }
      }
    } else {
      var t := OutputName(s[1..]);
      OutputNameHasNoXlsb(s[1..]);
      assert r == [s[0]] + t;
      forall i | 0 <= i <= |r| ensures !OccursAt(r, ".xlsb", i) {
        if i == 0 {
          NoXlsbAtFront(s);
        } else if i + 5 <= |r| {
          assert r[i..i + 5] == t[i - 1..i - 1 + 5];
          assert !OccursAt(t, ".xlsb", i - 1);
        }
      }
    }
  }

  /** When the scan copies the first character, the output cannot start
      with ".xlsb": the four letters after it come from the input. */
  lemma NoXlsbAtFront(s: string)
    requires |s| >= 5 && s[..5] != ".xlsb"
    ensures !OccursAt(OutputName(s), ".xlsb", 0)
  {
    var r := OutputName(s);
    var t := OutputName(s[1..]);
    assert r == [s[0]] + t;
    OutputNameChangesOnlyExtensionLetter(s[1..]);
    assert forall k :: 1 <= k < 5 ==> r[k] == t[k - 1] == s[1..][k - 1] == s[k];
    assert r[..5] == s[..5];
  }

  /** The output name equals the uploaded name exactly when the uploaded
      name holds no lower-case ".xlsb". */
  lemma OutputNameUnchangedIff(filename: string)
    ensures OutputName(filename) == filename <==> !Occurs(filename, ".xlsb")
  {
    if Occurs(filename, ".xlsb") {
      OutputNameHasNoXlsb(filename);
    } else {
      ReplaceAllWithoutOccurrence(filename, ".xlsb", ".xlsx");
    }
  }

  /** An upper-case extension passes the allow-list but keeps its name, so
      the converted file would be written over the uploaded one. */
  lemma UpperCaseExtensionKeepsName()
    ensures AllowedFile("A.XLSB")
    ensures OutputName("A.XLSB") == "A.XLSB"
  {
    assert TailAfter("A.XLSB", '.') == "XLSB" by {
      TailAfterUnique("A.XLSB", '.', 4);
      assert "A.XLSB"[2..] == "XLSB";
    }
    assert ToLower("XLSB") == "xlsb";
    assert !Occurs("A.XLSB", ".xlsb") by {
      forall i | 0 <= i <= 6 ensures !OccursAt("A.XLSB", ".xlsb", i) {
        if i + 5 <= 6 {
          assert "A.XLSB"[i + 1] != ".xlsb"[1];
        }
      }
    }
    OutputNameUnchangedIff("A.XLSB");
  }

  /** Python's `os.path.join(folder, name)` on POSIX for a folder without a
      trailing separator: an absolute name replaces the folder. */
  function Join(folder: string, name: string): string
  {
    if |name| > 0 && name[0] == '/' then name else folder + "/" + name
  }

  /** Python's `os.path.basename`: the text after the last '/'. */
  function Basename(path: string): string
  {
    TailAfter(path, '/')
  }

  /** A name without '/' saved into the upload folder comes back unchanged
      from Basename. */
  lemma BasenameOfJoin(name: string)
    requires '/' !in name
    ensures Basename(Join(UploadFolder, name)) == name
  {
    var p := UploadFolder + "/" + name;
    assert p[|p| - |name|..] == name;
    TailAfterUnique(p, '/', |name|);
  }

  /** Joining into the upload folder keeps distinct names distinct. */
  lemma JoinInjective(a: string, b: string)
    ensures Join(UploadFolder, a) == Join(UploadFolder, b) <==> a == b
  {
    var pa, pb := Join(UploadFolder, a), Join(UploadFolder, b);
    if !(|a| > 0 && a[0] == '/') && !(|b| > 0 && b[0] == '/') {
      assert a == pa[8..] && b == pb[8..];
    }
  }
}
