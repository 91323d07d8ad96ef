/**
 * File-path handling of the Kotlin bridge: stripping the `file://` scheme,
 * the name and extension of a `java.io.File`, the extension chosen for a
 * staged copy, and the lookup `getValidFilePath` / `getValidFilePathWithType`.
 * The file system is a value: the set of paths that exist, the app's external
 * files directory, and whether a copy would succeed.
 */
module FilePaths {
  import opened Wrappers
  import opened Text

  const FileScheme: string := "file://"

  /** Path cleaning: one leading "file://" is removed; any other path is kept. */
  function CleanPath(path: string): (clean: string)
    ensures FileScheme <= path ==> FileScheme + clean == path
    ensures !(FileScheme <= path) ==> clean == path
  {
    if FileScheme <= path then path[7..] else path
  }

  /** Exactly one scheme prefix is removed, even when the rest starts with another one. */
  lemma CleanPathRemovesOnePrefix(rest: string)
    ensures CleanPath(FileScheme + rest) == rest
  {
    assert FileScheme <= FileScheme + rest;
  }

  /** The suffix after the last occurrence of c, or None when c does not occur (`substringAfterLast`). */
  function SuffixAfterLast(s: string, c: char): (r: Option<string>)
    ensures r.None? <==> c !in s
    ensures r.Some? ==> |r.value| < |s| && s[|s| - |r.value| - 1] == c
                        && s[|s| - |r.value|..] == r.value && c !in r.value
  {
    if s == [] then None
    else if s[|s| - 1] == c then Some([])
    else match SuffixAfterLast(s[..|s| - 1], c)
      case None => None
      case Some(t) => Some(t + [s[|s| - 1]])
  }

  /** The last occurrence of c is found behind any text without c that follows it. */
  lemma {:induction false} SuffixAfterLastOf(front: string, c: char, back: string)
    requires c !in back
    ensures SuffixAfterLast(front + [c] + back, c) == Some(back)
    decreases |back|
  {
    var s := front + [c] + back;
    if back == [] {
      assert s[|s| - 1] == c;
    } else {
      var shorter := back[..|back| - 1];
      SuffixAfterLastOf(front, c, shorter);
      assert s[..|s| - 1] == front + [c] + shorter;
      assert shorter + [back[|back| - 1]] == back;
    }
  }

  /** `java.io.File` drops trailing separators when it normalises a path. */
  function StripTrailingSlashes(path: string): (p: string)
    ensures p <= path && (p == [] || p[|p| - 1] != '/')
  {
    if path != [] && path[|path| - 1] == '/' then StripTrailingSlashes(path[..|path| - 1]) else path
  }

  /** `File(path).name`: the part after the last separator. */
  function FileName(path: string): (name: string)
    ensures '/' !in name
  {
    var p := StripTrailingSlashes(path);
    match SuffixAfterLast(p, '/')
    case None => p
    case Some(n) => n
  }

  /** `File(path).extension`: the part of the name after its last dot, "" when there is none. */
  function Extension(path: string): (ext: string)
    ensures '.' !in ext && '/' !in ext
  {
    match SuffixAfterLast(FileName(path), '.')
    case None => ""
    case Some(e) => e
  }

  /** A file "dir/base.ext", with no separator in base or ext, has the extension ext. */
  lemma {:induction false} ExtensionOf(dir: string, base: string, ext: string)
    requires '/' !in base && '/' !in ext && '.' !in ext && ext != []
    ensures Extension(dir + "/" + base + "." + ext) == ext
  {
    var path := dir + "/" + base + "." + ext;
    assert path[|path| - 1] == ext[|ext| - 1];
    assert StripTrailingSlashes(path) == path;
    assert '/' !in base + "." + ext;
    assert path == dir + ['/'] + (base + "." + ext);
    SuffixAfterLastOf(dir, '/', base + "." + ext);
    assert FileName(path) == base + "." + ext;
    assert base + "." + ext == base + ['.'] + ext;
    SuffixAfterLastOf(base, '.', ext);
  }

  /** Only separators are stripped: the path is the result followed by a run of '/'. */
  lemma {:induction false} StripTrailingSlashesDropsSeparators(path: string)
    ensures var p := StripTrailingSlashes(path);
            path == p + path[|p|..] && forall i :: |p| <= i < |path| ==> path[i] == '/'
    decreases |path|
  {
    if path != [] && path[|path| - 1] == '/' {
      StripTrailingSlashesDropsSeparators(path[..|path| - 1]);
    }
  }

  /**
   * The name is the stripped path's last component: the whole of it when it
   * holds no separator, and otherwise the text behind its last separator.
   */
  lemma FileNameIsLastComponent(path: string)
    ensures var p := StripTrailingSlashes(path);
            var name := FileName(path);
            && ('/' !in p ==> name == p)
            && ('/' in p ==> |name| < |p| && p[|p| - |name| - 1] == '/' && p[|p| - |name|..] == name)
  {
    var p := StripTrailingSlashes(path);
    var r := SuffixAfterLast(p, '/');
    if r.Some? {
      assert FileName(path) == r.value;
    } else {
      assert FileName(path) == p;
    }
  }

  /**
   * The extension is "" when the name holds no dot; otherwise the name is
   * some text, a dot, and the extension, which holds no further dot.
   */
  lemma ExtensionIsAfterLastDot(path: string)
    ensures var name := FileName(path);
            var ext := Extension(path);
            && ('.' !in name ==> ext == "")
            && ('.' in name ==> |ext| < |name| && name == name[..|name| - |ext| - 1] + "." + ext)
  {
    var name := FileName(path);
    var r := SuffixAfterLast(name, '.');
    if r.Some? {
      assert Extension(path) == r.value;
      SplitBefore(name, |name| - |r.value| - 1);
    }
  }

  /** A string is its text before position k, the character at k, and the rest. */
  lemma SplitBefore(s: string, k: nat)
    requires k < |s|
    ensures s == s[..k] + [s[k]] + s[k + 1..]
  {
  }

  /** A name ending in a dot, such as "dir/report.", has the empty extension. */
  lemma {:induction false} ExtensionOfTrailingDot(dir: string, base: string)
    requires '/' !in base
    ensures Extension(dir + "/" + base + ".") == ""
  {
    var path := dir + "/" + base + ".";
    assert path[|path| - 1] == '.';
    assert StripTrailingSlashes(path) == path;
    assert '/' !in base + ".";
    assert path == dir + ['/'] + (base + ".");
    SuffixAfterLastOf(dir, '/', base + ".");
    assert FileName(path) == base + ".";
    assert base + "." == base + ['.'] + [];
    SuffixAfterLastOf(base, '.', []);
  }

  /** The name of "dir/name" is name, and trailing separators do not change it. */
  lemma {:induction false} FileNameOf(dir: string, name: string, slashes: nat)
    requires '/' !in name && name != []
    ensures FileName(dir + "/" + name + seq(slashes, _ => '/')) == name
  {
    var path := dir + "/" + name + seq(slashes, _ => '/');
    StripSlashRun(dir + "/" + name, slashes);
    assert dir + "/" + name == dir + ['/'] + name;
    SuffixAfterLastOf(dir, '/', name);
  }

  lemma {:induction false} StripSlashRun(front: string, slashes: nat)
    requires front != [] && front[|front| - 1] != '/'
    ensures StripTrailingSlashes(front + seq(slashes, _ => '/')) == front
    decreases slashes
  {
    if slashes > 0 {
      var path := front + seq(slashes, _ => '/');
      assert path[|path| - 1] == '/';
      assert path[..|path| - 1] == front + seq(slashes - 1, _ => '/');
      StripSlashRun(front, slashes - 1);
    } else {
      assert front + seq(0, _ => '/') == front;
    }
  }

  /** The fallback extensions of `copyFileToAccessibleLocation`, tried in this order. */
  const FallbackExtensions: seq<string> := [".pdf", ".jpg", ".jpeg", ".png"]

  function FallbackExtension(originalPath: string): string
  {
    if ContainsIgnoreCase(originalPath, ".pdf") then ".pdf"
    else if ContainsIgnoreCase(originalPath, ".jpg") then ".jpg"
    else if ContainsIgnoreCase(originalPath, ".jpeg") then ".jpeg"
    else if ContainsIgnoreCase(originalPath, ".png") then ".png"
    else ".tmp"
  }

  /**
   * The extension given to the staged copy: the source file's own extension,
   * lower-cased, or else a type guessed from the original path.
   */
  function CopyExtension(originalPath: string): string
  {
    var ext := Lower(Extension(CleanPath(originalPath)));
    if ext != "" then "." + ext else FallbackExtension(originalPath)
  }

  /** A non-empty extension of the source file is kept as "." plus its lower-cased form. */
  lemma CopyKeepsOwnExtension(originalPath: string)
    requires Extension(CleanPath(originalPath)) != ""
    ensures CopyExtension(originalPath) == "." + Lower(Extension(CleanPath(originalPath)))
  {
  }

  /**
   * Without an extension, the copy gets the first fallback the original path
   * contains (ignoring case), and ".tmp" exactly when it contains none.
   */
  lemma CopyFallbackChoice(originalPath: string)
    requires Extension(CleanPath(originalPath)) == ""
    ensures var chosen := CopyExtension(originalPath);
            && (chosen == ".tmp" <==> forall k :: 0 <= k < |FallbackExtensions| ==>
                                        !ContainsIgnoreCase(originalPath, FallbackExtensions[k]))
            && (chosen != ".tmp" ==>
                  exists k :: && 0 <= k < |FallbackExtensions|
                              && chosen == FallbackExtensions[k]
                              && ContainsIgnoreCase(originalPath, chosen)
                              && forall j :: 0 <= j < k ==> !ContainsIgnoreCase(originalPath, FallbackExtensions[j]))
  {
    assert Lower("") == "";
    assert CopyExtension(originalPath) == FallbackExtension(originalPath);
    FallbackOrder(originalPath);
  }

  lemma FallbackOrder(originalPath: string)
    ensures var chosen := FallbackExtension(originalPath);
            && (chosen == ".tmp" <==> forall k :: 0 <= k < |FallbackExtensions| ==>
                                        !ContainsIgnoreCase(originalPath, FallbackExtensions[k]))
            && (chosen != ".tmp" ==>
                  exists k :: && 0 <= k < |FallbackExtensions|
                              && chosen == FallbackExtensions[k]
                              && ContainsIgnoreCase(originalPath, chosen)
                              && forall j :: 0 <= j < k ==> !ContainsIgnoreCase(originalPath, FallbackExtensions[j]))
  {
    var e := FallbackExtensions;
    var chosen := FallbackExtension(originalPath);
    if ContainsIgnoreCase(originalPath, e[0]) { assert chosen == e[0]; }
    else if ContainsIgnoreCase(originalPath, e[1]) { assert chosen == e[1]; }
    else if ContainsIgnoreCase(originalPath, e[2]) { assert chosen == e[2]; }
    else if ContainsIgnoreCase(originalPath, e[3]) { assert chosen == e[3]; }
    else { assert chosen == ".tmp"; }
  }

  /** Where a staged copy can be written and whether writing it works. */
  datatype Storage = Storage(files: set<string>, externalFilesDir: string, copySucceeds: bool)

  /** The staged copy's file name, stamped with the clock reading in milliseconds. */
  function TempFileName(millis: nat, extension: string): string
  {
    "temp_print_" + Decimal(millis) + extension
  }

  /** `copyFileToAccessibleLocation`: a copy of an existing source file in the external files directory. */
  function CopyFileToAccessibleLocation(originalPath: string, storage: Storage, millis: nat): (copy: Option<string>)
    ensures copy.Some? <==> CleanPath(originalPath) in storage.files && storage.copySucceeds
    ensures copy.Some? ==> copy.value == storage.externalFilesDir + "/" + TempFileName(millis, CopyExtension(originalPath))
  {
    var cleanPath := CleanPath(originalPath);
    if cleanPath !in storage.files then None
    else if !storage.copySucceeds then None
    else Some(storage.externalFilesDir + "/" + TempFileName(millis, CopyExtension(originalPath)))
  }

  /** `getValidFilePath`: the cleaned path if it exists, else a staged copy. */
  function GetValidFilePath(filePath: string, storage: Storage, millis: nat): Option<string>
  {
    var cleanPath := CleanPath(filePath);
    if cleanPath in storage.files then Some(cleanPath)
    else CopyFileToAccessibleLocation(filePath, storage, millis)
  }

  /**
   * The copy fallback can never produce a path: it tests the very file whose
   * absence sent the lookup there. So a lookup yields the cleaned path
   * exactly when that file exists, and nothing otherwise.
   */
  lemma GetValidFilePathIsExistenceTest(filePath: string, storage: Storage, millis: nat)
    ensures GetValidFilePath(filePath, storage, millis)
            == if CleanPath(filePath) in storage.files then Some(CleanPath(filePath)) else None
  {
  }

  const ImageExtensions: seq<string> := ["jpg", "jpeg", "png", "bmp", "gif"]

  /** The file-type check of `getValidFilePathWithType`. */
  function IsExpectedType(extension: string, expectedType: string): bool
  {
    var expected := Lower(expectedType);
    if expected == "pdf" then extension == "pdf"
    else if expected == "image" then extension in ImageExtensions
    else true
  }

  /** `getValidFilePathWithType`: a found path whose lower-cased extension matches the expected type. */
  function GetValidFilePathWithType(filePath: string, expectedType: string, storage: Storage, millis: nat)
    : Option<string>
  {
    match GetValidFilePath(filePath, storage, millis)
    case None => None
    case Some(validPath) =>
      var extension := Lower(Extension(validPath));
      if IsExpectedType(extension, expectedType) then Some(validPath) else None
  }

  /**
   * "pdf" (in any case) accepts only the extension pdf, "image" only
   * jpg/jpeg/png/bmp/gif, and any other expected type every existing file.
   */
  lemma GetValidFilePathWithTypeAccepts(filePath: string, expectedType: string, storage: Storage, millis: nat)
    ensures var clean := CleanPath(filePath);
            var ext := Lower(Extension(clean));
            var r := GetValidFilePathWithType(filePath, expectedType, storage, millis);
            && (r.Some? ==> r.value == clean && clean in storage.files)
            && (Lower(expectedType) == "pdf" ==> (r.Some? <==> clean in storage.files && ext == "pdf"))
            && (Lower(expectedType) == "image" ==> (r.Some? <==> clean in storage.files && ext in ImageExtensions))
            && (Lower(expectedType) != "pdf" && Lower(expectedType) != "image" ==> (r.Some? <==> clean in storage.files))
  {
    GetValidFilePathIsExistenceTest(filePath, storage, millis);
  }
}
