/**
 * The object-store path under which `uploadFile` stores a file:
 * `<user id>/<tag>_<Date.now()>.<extension>`, where the extension is
 * `file.name.split('.').pop()`. Calls record the `Key` the path is rendered from.
 */
module StoragePath {
  import Js

  /**
   * `name.split('.').pop()`: the text after the last '.', or the whole name when it has no '.'.
   */
  function Extension(name: string): (ext: string)
    decreases |name|
  {
    if name == [] then []
    else if name[|name| - 1] == '.' then []
    else Extension(name[..|name| - 1]) + [name[|name| - 1]]
  }

  /** The extension holds no '.' and is a suffix of the name. */
  lemma {:induction false} ExtensionIsSuffix(name: string)
    ensures var ext := Extension(name);
      '.' !in ext && |ext| <= |name| && ext == name[|name| - |ext|..]
    decreases |name|
  {
    if name != [] && name[|name| - 1] != '.' {
      var init := name[..|name| - 1];
      ExtensionIsSuffix(init);
      assert Extension(name) == Extension(init) + [name[|name| - 1]];
      assert name[|name| - |Extension(name)|..] == init[|init| - |Extension(init)|..] + [name[|name| - 1]];
    }
  }

  /**
   * The extension is either the whole name or the part right after a '.'; with
   * `ExtensionIsSuffix` it is what follows the LAST '.', and a name without a '.' is its own extension.
   */
  lemma {:induction false} ExtensionIsLastSegment(name: string)
    ensures var ext := Extension(name);
      |ext| <= |name| && (|ext| == |name| || name[|name| - |ext| - 1] == '.')
    ensures '.' !in name ==> Extension(name) == name
    decreases |name|
  {
    if name != [] && name[|name| - 1] != '.' {
      var init := name[..|name| - 1];
      ExtensionIsLastSegment(init);
      assert Extension(name) == Extension(init) + [name[|name| - 1]];
      assert forall i :: 0 <= i < |init| ==> init[i] == name[i];
      if '.' !in name {
        assert '.' !in init;
        assert name == init + [name[|name| - 1]];
      }
    }
  }

  /** Whatever precedes the last '.', the extension is the text after it. */
  lemma {:induction false} ExtensionAfterDot(stem: string, ext: string)
    requires '.' !in ext
    ensures Extension(stem + "." + ext) == ext
    decreases |ext|
  {
    if ext == [] {
      assert (stem + "." + ext)[|stem + "." + ext| - 1] == '.';
    } else {
      var s := stem + "." + ext;
      assert s[..|s| - 1] == stem + "." + ext[..|ext| - 1];
      assert s[|s| - 1] == ext[|ext| - 1];
      ExtensionAfterDot(stem, ext[..|ext| - 1]);
      assert ext == ext[..|ext| - 1] + [ext[|ext| - 1]];
    }
  }

  /** The tag an upload is named after: a fixed one per single-file slot, `${basePath}_${i}` for list entries. */
  datatype Tag = Named(name: string) | Indexed(base: string, index: nat)

  function TagText(t: Tag): string {
    match t
    case Named(name) => name
    case Indexed(base, i) => base + "_" + Js.NatToString(i)
  }

  /** What an object key is made from: the user, the tag, the clock reading and the picked file's name. */
  datatype Key = Key(userId: string, tag: Tag, now: nat, fileName: string)

  /** `${path}_${Date.now()}.${fileExt}`. */
  function FileName(tag: Tag, now: nat, name: string): string {
    TagText(tag) + "_" + Js.NatToString(now) + "." + Extension(name)
  }

  /** `${user.id}/${fileName}`: the file lands in the user's own folder. */
  function Path(k: Key): (p: string)
    ensures k.userId + "/" <= p
  {
    k.userId + "/" + FileName(k.tag, k.now, k.fileName)
  }

  /** The stored object keeps the extension of the file the user picked. */
  lemma PathKeepsExtension(k: Key)
    ensures Extension(Path(k)) == Extension(k.fileName)
  {
    var stem := k.userId + "/" + TagText(k.tag) + "_" + Js.NatToString(k.now);
    assert Path(k) == stem + "." + Extension(k.fileName);
    ExtensionIsSuffix(k.fileName);
    ExtensionAfterDot(stem, Extension(k.fileName));
  }

  /**
   * The timestamp is what keeps two uploads of the same file under the same tag apart:
   * different clock readings give different paths.
   */
  lemma PathTimestampInjective(k1: Key, k2: Key)
    requires k1.userId == k2.userId && k1.tag == k2.tag && k1.fileName == k2.fileName
    requires Path(k1) == Path(k2)
    ensures k1.now == k2.now
  {
    var prefix := k1.userId + "/" + TagText(k1.tag) + "_";
    var suffix := "." + Extension(k1.fileName);
    var d1, d2 := Js.NatToString(k1.now), Js.NatToString(k2.now);
    var p1, p2 := Path(k1), Path(k2);
    assert p1 == prefix + d1 + suffix;
    assert p2 == prefix + d2 + suffix;
    assert |d1| == |d2|;
    assert p1[|prefix|..|prefix| + |d1|] == d1;
    assert p2[|prefix|..|prefix| + |d2|] == d2;
    Js.NatToStringInjective(k1.now, k2.now);
  }
}
