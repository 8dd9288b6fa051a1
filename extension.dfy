/**
 The extension sanitiser of the upload controller (`ExtractExtension`).

 The client-declared content-disposition filename is first cleaned of every
 character in the platform's invalid-filename set (a LINQ `Where` filter),
 and the extension is then what .NET's `Path.GetExtension` yields for the
 cleaned name. The invalid set is a parameter; the lemmas that need it assume
 only that it holds the three Windows path separators.
 */
module Extension {

  /** `Path.DirectorySeparatorChar`, `AltDirectorySeparatorChar` and
      `VolumeSeparatorChar` on Windows: `Path.GetExtension` stops at them. */
  predicate IsSeparator(c: char) {
    c == '\\' || c == '/' || c == ':'
  }

  /** The separators are all in `invalid`. */
  predicate RemovesSeparators(invalid: set<char>) {
    '\\' in invalid && '/' in invalid && ':' in invalid
  }

  /** No character of `s` is in `chars`. */
  predicate NoneOf(s: string, chars: set<char>) {
    forall i :: 0 <= i < |s| ==> s[i] !in chars
  }

  predicate NoSeparator(s: string) {
    forall i :: 0 <= i < |s| ==> !IsSeparator(s[i])
  }

  predicate NoDot(s: string) {
    forall i :: 0 <= i < |s| ==> s[i] != '.'
  }

  /** `r` can be obtained from `s` by deleting characters (greedy matching). */
  predicate IsSubsequence(r: string, s: string) {
    if r == [] then true
    else if s == [] then false
    else if r[0] == s[0] then IsSubsequence(r[1..], s[1..])
    else IsSubsequence(r, s[1..])
  }

  /** `name.Where(x => !invalid.Contains(x))`: drops the invalid characters,
      keeping every other character, each as often as it occurs. */
  function RemoveInvalid(name: string, invalid: set<char>): (clean: string)
    ensures NoneOf(clean, invalid)
    ensures |clean| <= |name|
  {
    if name == [] then []
    else if name[0] in invalid then RemoveInvalid(name[1..], invalid)
    else [name[0]] + RemoveInvalid(name[1..], invalid)
  }

  /** The loop of `Path.GetExtension` that looks at `path[i - 1]`, `path[i - 2]`,
      ... back to the start: a `.` ends the scan with the suffix from it (or ""
      when the `.` is the last character), a separator ends it with "". */
  function ScanBack(path: string, i: nat): string
    requires i <= |path|
  {
    if i == 0 then ""
    else if path[i - 1] == '.' then (if i - 1 != |path| - 1 then path[i - 1..] else "")
    else if IsSeparator(path[i - 1]) then ""
    else ScanBack(path, i - 1)
  }

  /** `Path.GetExtension(path)` for a non-null path. */
  function GetExtension(path: string): string {
    ScanBack(path, |path|)
  }

  /** `ExtractExtension`: the extension of the cleaned client filename. */
  function ExtractExtension(fileName: string, invalid: set<char>): string {
    GetExtension(RemoveInvalid(fileName, invalid))
  }

  /** The shape of every extension: "" or a `.` followed by at least one
      character, none of them a `.`. */
  predicate IsExtension(ext: string) {
    ext == [] || (|ext| >= 2 && ext[0] == '.' && NoDot(ext[1..]))
  }

  /** `ext` is the part of `name` from its last `.` on, when that `.` is not
      the last character; "" when `name` has no `.` or ends in one. */
  predicate IsLastDotSuffix(ext: string, name: string) {
    && IsExtension(ext)
    && (ext == [] <==> (NoDot(name) || name[|name| - 1] == '.'))
    && (ext != [] ==> |ext| <= |name| && name[|name| - |ext|..] == ext)
  }

  // ---------------------------------------------------------------------------
  // The filter

  lemma {:induction false} RemoveInvalidIsSubsequence(name: string, invalid: set<char>)
    ensures IsSubsequence(RemoveInvalid(name, invalid), name)
  {
    if name != [] {
      RemoveInvalidIsSubsequence(name[1..], invalid);
      var rest := RemoveInvalid(name[1..], invalid);
      if name[0] in invalid {
        SubsequenceOfTail(rest, name);
      } else {
        assert ([name[0]] + rest)[1..] == rest;
      }
    }
  }

  /** A subsequence of the tail is a subsequence of the whole. */
  lemma {:induction false} SubsequenceOfTail(r: string, s: string)
    requires s != [] && IsSubsequence(r, s[1..])
    ensures IsSubsequence(r, s)
    decreases |r| + |s|
  {
    if r != [] && r[0] == s[0] {
      SubsequenceDropHead(r, s[1..]);
    }
  }

  /** Dropping the first character of a subsequence leaves a subsequence. */
  lemma {:induction false} SubsequenceDropHead(r: string, t: string)
    requires r != [] && IsSubsequence(r, t)
    ensures IsSubsequence(r[1..], t)
    decreases |r| + |t|
  {
    if r[0] != t[0] {
      SubsequenceDropHead(r, t[1..]);
    }
    SubsequenceOfTail(r[1..], t);
  }

  /** Every valid character occurs in the cleaned name as often as in the
      original. */
  lemma {:induction false} RemoveInvalidKeepsValid(name: string, invalid: set<char>, c: char)
    requires c !in invalid
    ensures multiset(RemoveInvalid(name, invalid))[c] == multiset(name)[c]
  {
    if name != [] {
      RemoveInvalidKeepsValid(name[1..], invalid, c);
      assert name == [name[0]] + name[1..];
    }
  }

  /** A clean name is its own filtered form. */
  lemma {:induction false} RemoveInvalidOfClean(name: string, invalid: set<char>)
    requires NoneOf(name, invalid)
    ensures RemoveInvalid(name, invalid) == name
  {
    if name != [] {
      RemoveInvalidOfClean(name[1..], invalid);
      assert name == [name[0]] + name[1..];
    }
  }

  /** Filtering a second time changes nothing. */
  lemma {:induction false} RemoveInvalidIdempotent(name: string, invalid: set<char>)
    ensures RemoveInvalid(RemoveInvalid(name, invalid), invalid) == RemoveInvalid(name, invalid)
  {
    RemoveInvalidOfClean(RemoveInvalid(name, invalid), invalid);
  }

  /** A subsequence of `s` made only of valid characters is a subsequence of
      the filtered `s`. */
  lemma {:induction false} CleanSubsequenceOfFiltered(r: string, s: string, invalid: set<char>)
    requires IsSubsequence(r, s) && NoneOf(r, invalid)
    ensures IsSubsequence(r, RemoveInvalid(s, invalid))
  {
    if r != [] {
      var rest := RemoveInvalid(s[1..], invalid);
      if s[0] in invalid {
        assert r[0] != s[0];
        CleanSubsequenceOfFiltered(r, s[1..], invalid);
      } else if r[0] == s[0] {
        CleanSubsequenceOfFiltered(r[1..], s[1..], invalid);
        assert ([s[0]] + rest)[1..] == rest;
      } else {
        CleanSubsequenceOfFiltered(r, s[1..], invalid);
        assert ([s[0]] + rest)[1..] == rest;
      }
    }
  }

  lemma {:induction false} SubsequenceLength(r: string, s: string)
    requires IsSubsequence(r, s)
    ensures |r| <= |s|
    ensures |r| == |s| ==> r == s
  {
    if r != [] {
      if r[0] == s[0] {
        SubsequenceLength(r[1..], s[1..]);
        if |r| == |s| {
          assert r == [r[0]] + r[1..] && s == [s[0]] + s[1..];
        }
      } else {
        SubsequenceLength(r, s[1..]);
      }
    }
  }

  /** The filter is the only way to delete characters from `name` so that
      no invalid character is left and as many characters as possible remain:
      the cleaned name is the original with the invalid characters removed
      and the others kept in order. */
  lemma {:induction false} RemoveInvalidUnique(name: string, invalid: set<char>, r: string)
    requires IsSubsequence(r, name) && NoneOf(r, invalid)
    requires |r| >= |RemoveInvalid(name, invalid)|
    ensures r == RemoveInvalid(name, invalid)
  {
    CleanSubsequenceOfFiltered(r, name, invalid);
    SubsequenceLength(r, RemoveInvalid(name, invalid));
  }

  // ---------------------------------------------------------------------------
  // Path.GetExtension

  /** What the scan returns when it starts at `i` in a name without
      separators: the last-dot suffix of `path[..i]` extended to the end of
      `path`, or "". */
  lemma {:induction false} ScanBackFindsLastDot(path: string, i: nat)
    requires i <= |path| && NoSeparator(path)
    requires NoDot(path[i..])
    ensures var ext := ScanBack(path, i);
      && IsExtension(ext)
      && (ext == [] <==> (NoDot(path[..i]) || (i == |path| && path[i - 1] == '.')))
      && (ext != [] ==> |ext| <= |path| && path[|path| - |ext|..] == ext)
  {
    if i > 0 && path[i - 1] != '.' {
      assert path[i - 1..] == [path[i - 1]] + path[i..];
      ScanBackFindsLastDot(path, i - 1);
      assert path[..i] == path[..i - 1] + [path[i - 1]];
    } else if i > 0 {
      assert path[i - 1..][1..] == path[i..];
    }
  }

  /** Without separators, `Path.GetExtension` is the last-dot suffix. */
  lemma GetExtensionIsLastDotSuffix(name: string)
    requires NoSeparator(name)
    ensures IsLastDotSuffix(GetExtension(name), name)
  {
    ScanBackFindsLastDot(name, |name|);
    assert name[..|name|] == name;
  }

  /** With the separators in the invalid set, the extension of the cleaned
      filename is its last-dot suffix, and it holds no invalid character. */
  lemma ExtractExtensionIsLastDotSuffix(fileName: string, invalid: set<char>)
    requires RemovesSeparators(invalid)
    ensures IsLastDotSuffix(ExtractExtension(fileName, invalid), RemoveInvalid(fileName, invalid))
    ensures NoneOf(ExtractExtension(fileName, invalid), invalid)
  {
    var clean := RemoveInvalid(fileName, invalid);
    GetExtensionIsLastDotSuffix(clean);
    var ext := GetExtension(clean);
    if ext != [] {
      assert forall i :: 0 <= i < |ext| ==> ext[i] == clean[|clean| - |ext| + i];
    }
  }

  /** Appending an extension to a stem without dots or separators: the
      extension of the whole is the appended extension. */
  lemma GetExtensionOfStemPlusExtension(stem: string, ext: string)
    requires NoDot(stem) && NoSeparator(stem)
    requires IsExtension(ext) && NoSeparator(ext)
    ensures GetExtension(stem + ext) == ext
  {
    var path := stem + ext;
    assert NoSeparator(path) by {
      forall i | 0 <= i < |path| ensures !IsSeparator(path[i]) {
        if i >= |stem| { assert path[i] == ext[i - |stem|]; }
      }
    }
    GetExtensionIsLastDotSuffix(path);
    var got := GetExtension(path);
    if ext == [] {
      assert path == stem;
    } else {
      assert path[|stem|] == '.';
      assert path[|path| - 1] == ext[|ext| - 1] != '.';
      assert got != [];
    }
  }

  /** Filtering distributes over concatenation. */
  lemma {:induction false} RemoveInvalidConcat(a: string, b: string, invalid: set<char>)
    ensures RemoveInvalid(a + b, invalid) == RemoveInvalid(a, invalid) + RemoveInvalid(b, invalid)
  {
    if a != [] {
      RemoveInvalidConcat(a[1..], b, invalid);
      assert (a + b)[1..] == a[1..] + b;
    } else {
      assert a + b == b;
    }
  }

  /** A filename with invalid characters inside its stem. */
  lemma BadNameExample(invalid: set<char>)
    requires ':' in invalid && '*' in invalid
    requires NoneOf("bad", invalid) && NoneOf("name", invalid) && NoneOf(".jpg", invalid)
    ensures ExtractExtension("bad:name*.jpg", invalid) == ".jpg"
  {
    var tail := "*" + ".jpg";
    RemoveInvalidConcat("*", ".jpg", invalid);
    RemoveInvalidOfClean(".jpg", invalid);
    assert RemoveInvalid(tail, invalid) == ".jpg";
    var mid := ":" + ("name" + tail);
    RemoveInvalidConcat("name", tail, invalid);
    RemoveInvalidConcat(":", "name" + tail, invalid);
    RemoveInvalidOfClean("name", invalid);
    assert RemoveInvalid(mid, invalid) == "name" + ".jpg";
    RemoveInvalidConcat("bad", mid, invalid);
    RemoveInvalidOfClean("bad", invalid);
    assert "bad:name*.jpg" == "bad" + mid;
    assert "bad" + ("name" + ".jpg") == "badname" + ".jpg";
    GetExtensionOfStemPlusExtension("badname", ".jpg");
  }
}
