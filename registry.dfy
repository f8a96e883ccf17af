/**
 * The tool store: one file `<name>.json` per approved tool in a directory.
 * The directory is a map from file name to file content, or None when the
 * directory does not exist. `JSON.stringify` and `JSON.parse` of a record are
 * an encoder and a decoder passed in as a `Codec`; decoding may fail.
 */
module Registry {
  import opened Wrappers
  import opened Text
  import opened Order
  import opened Tools

  type Directory = map<string, string>

  const Extension: string := ".json"

  /** `${name}.json`, the file that holds the tool called `name`. */
  function FileName(name: string): (f: string)
    ensures EndsWith(f, Extension) && |f| == |name| + |Extension| && f[..|name|] == name
  {
    name + Extension
  }

  /** Distinct names are stored in distinct files. */
  lemma FileNameInjective(n: string, m: string)
    requires FileName(n) == FileName(m)
    ensures n == m
  {
  }

  /** What `list` makes of a file name: `f.replace(".json", "")`, which drops the FIRST ".json". */
  function ListedName(f: string): (n: string)
    ensures !Occurs(f, Extension) ==> n == f
    ensures Occurs(f, Extension) ==> |n| == |f| - |Extension|
    ensures Occurs(f, Extension) ==>
      exists i :: && OccursAt(f, Extension, i)
                  && (forall j :: 0 <= j < i ==> !OccursAt(f, Extension, j))
                  && n == f[..i] + f[i + |Extension|..]
  {
    var i := IndexOf(f, Extension);
    assert i.Some? ==> f[..i.value] + "" + f[i.value + |Extension|..] == f[..i.value] + f[i.value + |Extension|..];
    ReplaceFirst(f, Extension, "")
  }

  /** A name in which ".json" does not occur is listed as itself. */
  lemma ListedNameOfFileName(n: string)
    requires !Occurs(n, Extension)
    ensures ListedName(FileName(n)) == n
  {
    var f := FileName(n);
    assert OccursAt(f, Extension, |n|);
    forall j | 0 <= j < |n| ensures !OccursAt(f, Extension, j) {
      if j + |Extension| <= |n| {
        assert n[j..j + |Extension|] == f[j..j + |Extension|];
        assert !OccursAt(n, Extension, j);
      } else {
        // The occurrence would straddle the end of `n`; the '.' at f[|n|] rules it out.
        assert f[|n|] == '.';
        var k := |n| - j;
        assert 1 <= k < |Extension|;
        assert f[j..j + |Extension|][k] == f[|n|];
        assert Extension[k] != '.';
      }
    }
    assert IndexOf(f, Extension) == Some(|n|);
  }

  /** A name with ".json" inside is listed under another name: "x.jsonY" comes back as "xY.json". */
  lemma ListedNameMisnames()
    ensures ListedName(FileName("x.jsonY")) == "xY.json"
    ensures FileName("xY.json") != FileName("x.jsonY")
  {
    var f := FileName("x.jsonY");
    assert f == "x.jsonY.json";
    assert f[0..5][0] == 'x' != Extension[0];
    assert f[1..6] == Extension;
    assert IndexFrom(f, Extension, 1) == Some(1);
    assert IndexOf(f, Extension) == Some(1);
    assert f[..1] + "" + f[6..] == "xY.json";
  }

  /**
   * So `list` can report a tool that `load` cannot find: a store holding only
   * the tool "x.jsonY" lists "xY.json", and loading "xY.json" finds nothing.
   */
  lemma ListedNameNotLoadable(c: Codec, t: Tool)
    requires t.name == "x.jsonY"
    ensures ListFrom(Some(map[FileName(t.name) := c.encode(t)])) == ["xY.json"]
    ensures LoadFrom(c, Some(map[FileName(t.name) := c.encode(t)]), "xY.json") == Success(None)
  {
    SingleFileListed(FileName(t.name), c.encode(t));
    ListedNameMisnames();
  }

  /** A directory holding one `.json` file lists just that file. */
  lemma SingleFileListed(f: string, record: string)
    requires EndsWith(f, Extension)
    ensures JsonFiles(map[f := record]) == [f]
    ensures ListFrom(Some(map[f := record])) == [ListedName(f)]
  {
    var d := map[f := record];
    var sorted := SortedElements(d.Keys);
    assert d.Keys == {f};
    assert |sorted| == 1 && sorted[0] in d.Keys;
    assert sorted == [f];
    assert JsonOnly([f]) == [f];
  }

  /** The serializer pair standing for `JSON.stringify` and `JSON.parse` of one record. */
  datatype Codec = Codec(encode: Tool -> string, decode: string -> Option<Tool>)

  /** A read that hit a record `JSON.parse` cannot parse. */
  datatype ReadError = CorruptRecord(file: string)

  /** `load`: null (None) when there is no file for the name, the decoded record otherwise. */
  function LoadFrom(c: Codec, dir: Option<Directory>, name: string): (r: Result<Option<Tool>, ReadError>)
    ensures r == Success(None) <==> dir.None? || FileName(name) !in dir.value
    ensures r.Failure? <==> dir.Some? && FileName(name) in dir.value && c.decode(dir.value[FileName(name)]).None?
    ensures r.Failure? ==> r.error == CorruptRecord(FileName(name))
    ensures r.Success? && r.value.Some? ==> c.decode(dir.value[FileName(name)]) == r.value
  {
    if dir.None? || FileName(name) !in dir.value then Success(None)
    else match c.decode(dir.value[FileName(name)])
      case None => Failure(CorruptRecord(FileName(name)))
      case Some(t) => Success(Some(t))
  }

  lemma AscendingHead(files: seq<string>)
    requires Ascending(files) && |files| > 0
    ensures forall x :: x in files[1..] ==> Below(files[0], x) && files[0] != x
  {
  }

  /** `.filter(f => f.endsWith(".json"))`, keeping the listing order. */
  function JsonOnly(files: seq<string>): (r: seq<string>)
    ensures forall x :: x in r <==> x in files && EndsWith(x, Extension)
    ensures Ascending(files) ==> Ascending(r)
  {
    if files == [] then []
    else
      var rest := JsonOnly(files[1..]);
      if !EndsWith(files[0], Extension) then
        assert Ascending(files) ==> Ascending(files[1..]) by {
          if Ascending(files) {
            forall i, j | 0 <= i < j < |files| - 1
              ensures Below(files[1..][i], files[1..][j]) && files[1..][i] != files[1..][j]
            {
              assert files[1..][i] == files[i + 1] && files[1..][j] == files[j + 1];
            }
          }
        }
        rest
      else
        assert Ascending(files) ==> Ascending([files[0]] + rest) by {
          if Ascending(files) {
            forall i, j | 0 <= i < j < |files| - 1
              ensures Below(files[1..][i], files[1..][j]) && files[1..][i] != files[1..][j]
            {
              assert files[1..][i] == files[i + 1] && files[1..][j] == files[j + 1];
            }
            AscendingHead(files);
            assert forall k :: 0 <= k < |rest| ==> rest[k] in rest;
          }
        }
        [files[0]] + rest
  }

  /** The `.json` entries of a directory listing, in listing order. */
  function JsonFiles(d: Directory): (fs: seq<string>)
    ensures Ascending(fs)
    ensures forall f :: f in fs <==> f in d && EndsWith(f, Extension)
  {
    JsonOnly(SortedElements(d.Keys))
  }

  /** `list`: every `.json` file name with its first ".json" removed; [] when the directory is missing. */
  function ListFrom(dir: Option<Directory>): (names: seq<string>)
    ensures dir.None? ==> names == []
    ensures dir.Some? ==> |names| == |JsonFiles(dir.value)|
    ensures dir.Some? ==> forall i :: 0 <= i < |names| ==> names[i] == ListedName(JsonFiles(dir.value)[i])
  {
    if dir.None? then []
    else
      var fs := JsonFiles(dir.value);
      seq(|fs|, i requires 0 <= i < |fs| => ListedName(fs[i]))
  }

  /** `files[i]` is the first of `files` whose record does not decode. */
  predicate FirstCorrupt(c: Codec, d: Directory, files: seq<string>, i: int)
    requires forall f :: f in files ==> f in d
  {
    && 0 <= i < |files| && c.decode(d[files[i]]).None?
    && forall k :: 0 <= k < i ==> c.decode(d[files[k]]).Some?
  }

  /** `.map(f => JSON.parse(...))` over the listed files: the first unparsable one aborts the whole read. */
  function DecodeAll(c: Codec, d: Directory, files: seq<string>): (r: Result<seq<Tool>, ReadError>)
    requires forall f :: f in files ==> f in d
    ensures r.Success? <==> forall f :: f in files ==> c.decode(d[f]).Some?
    ensures r.Success? ==> |r.value| == |files|
    ensures r.Success? ==> forall i :: 0 <= i < |files| ==> c.decode(d[files[i]]) == Some(r.value[i])
    ensures r.Failure? ==> exists i :: FirstCorrupt(c, d, files, i) && r.error == CorruptRecord(files[i])
  {
    if files == [] then Success([])
    else
      match c.decode(d[files[0]])
      case None =>
        assert FirstCorrupt(c, d, files, 0);
        Failure(CorruptRecord(files[0]))
      case Some(t) =>
        match DecodeAll(c, d, files[1..])
        case Failure(e) =>
          FirstCorruptAfterHead(c, d, files, e);
          Failure(e)
        case Success(ts) =>
          assert forall f :: f in files ==> f == files[0] || f in files[1..];
          Success([t] + ts)
  }

  /** When the head decodes, the first corrupt file of the tail is the first corrupt file of the whole. */
  lemma FirstCorruptAfterHead(c: Codec, d: Directory, files: seq<string>, e: ReadError)
    requires forall f :: f in files ==> f in d
    requires files != [] && c.decode(d[files[0]]).Some?
    requires exists i :: FirstCorrupt(c, d, files[1..], i) && e == CorruptRecord(files[1..][i])
    ensures exists i :: FirstCorrupt(c, d, files, i) && e == CorruptRecord(files[i])
  {
    var i :| FirstCorrupt(c, d, files[1..], i) && e == CorruptRecord(files[1..][i]);
    forall k | 0 <= k < i + 1 ensures c.decode(d[files[k]]).Some? {
      if k > 0 { assert files[k] == files[1..][k - 1]; }
    }
    assert files[i + 1] == files[1..][i];
    assert FirstCorrupt(c, d, files, i + 1);
  }

  /** `loadAll`: every `.json` record decoded, in listing order; [] when the directory is missing. */
  function LoadAllFrom(c: Codec, dir: Option<Directory>): (r: Result<seq<Tool>, ReadError>)
    ensures dir.None? ==> r == Success([])
    ensures dir.Some? && r.Success? ==> |r.value| == |JsonFiles(dir.value)|
    ensures dir.Some? && r.Success? ==>
      forall i :: 0 <= i < |r.value| ==> c.decode(dir.value[JsonFiles(dir.value)[i]]) == Some(r.value[i])
    ensures dir.Some? ==>
      (r.Failure? <==> exists f :: f in dir.value && EndsWith(f, Extension) && c.decode(dir.value[f]).None?)
    ensures r.Failure? ==> dir.Some? && r.error.file in dir.value && EndsWith(r.error.file, Extension)
    ensures dir.Some? && r.Failure? ==>
      exists i :: FirstCorrupt(c, dir.value, JsonFiles(dir.value), i) && r.error == CorruptRecord(JsonFiles(dir.value)[i])
  {
    if dir.None? then Success([])
    else DecodeAll(c, dir.value, JsonFiles(dir.value))
  }

  /** After saving `t`, `t.name` is listed, as long as ".json" does not occur in it. */
  lemma SavedNameListed(d: Directory, c: Codec, t: Tool)
    requires !Occurs(t.name, Extension)
    ensures t.name in ListFrom(Some(d[FileName(t.name) := c.encode(t)]))
  {
    var d' := d[FileName(t.name) := c.encode(t)];
    var fs := JsonFiles(d');
    assert FileName(t.name) in fs;
    var i :| 0 <= i < |fs| && fs[i] == FileName(t.name);
    ListedNameOfFileName(t.name);
    assert ListFrom(Some(d'))[i] == t.name;
  }

  lemma {:induction false} DecodeAllAgrees(c: Codec, d: Directory, d': Directory, files: seq<string>)
    requires forall f :: f in files ==> f in d && f in d' && d[f] == d'[f]
    ensures DecodeAll(c, d, files) == DecodeAll(c, d', files)
  {
    if files != [] {
      DecodeAllAgrees(c, d, d', files[1..]);
    }
  }

  /** A file whose name does not end in ".json" changes neither `list` nor `loadAll`. */
  lemma OtherFilesIgnored(c: Codec, d: Directory, f: string, content: string)
    requires !EndsWith(f, Extension)
    ensures ListFrom(Some(d[f := content])) == ListFrom(Some(d))
    ensures LoadAllFrom(c, Some(d[f := content])) == LoadAllFrom(c, Some(d))
  {
    var d' := d[f := content];
    AscendingUnique(JsonFiles(d'), JsonFiles(d));
    DecodeAllAgrees(c, d', d, JsonFiles(d));
  }

  /** `ToolRegistry`: the store over the directory `dir`. */
  class ToolRegistry {
    const codec: Codec
    var dir: Option<Directory>

    /** The directory exists: the constructor creates it and nothing in the store deletes it. */
    ghost predicate Valid()
      reads this
    {
      dir.Some?
    }

    /** `mkdirSync(dir, { recursive: true })`: an existing directory keeps its files. */
    constructor (codec: Codec, existing: Option<Directory>)
      ensures Valid() && this.codec == codec
      ensures dir == Some(if existing.Some? then existing.value else map[])
    {
      this.codec := codec;
      dir := Some(if existing.Some? then existing.value else map[]);
    }

    /** `save`: write (or overwrite) the tool's file; nothing else in the directory changes. */
    method Save(tool: Tool)
      requires Valid()
      modifies this
      ensures Valid()
      ensures dir == Some(old(dir.value)[FileName(tool.name) := codec.encode(tool)])
      ensures codec.decode(codec.encode(tool)) == Some(tool) ==> Load(tool.name) == Success(Some(tool))
      ensures codec.decode(codec.encode(tool)).None? ==> Load(tool.name) == Failure(CorruptRecord(FileName(tool.name)))
      ensures codec.decode(codec.encode(tool)).Some? ==> Load(tool.name) == Success(codec.decode(codec.encode(tool)))
      ensures forall n :: n != tool.name ==> Load(n) == old(Load(n))
    {
      dir := Some(dir.value[FileName(tool.name) := codec.encode(tool)]);
      forall n | n != tool.name ensures FileName(n) != FileName(tool.name) {
        if FileName(n) == FileName(tool.name) { FileNameInjective(n, tool.name); }
      }
    }

    /** `remove`: delete the tool's file and report whether it existed. */
    method Remove(name: string) returns (removed: bool)
      requires Valid()
      modifies this
      ensures Valid()
      ensures removed == (FileName(name) in old(dir.value))
      ensures dir == Some(old(dir.value) - {FileName(name)})
      ensures Load(name) == Success(None)
      ensures forall n :: n != name ==> Load(n) == old(Load(n))
    {
      removed := FileName(name) in dir.value;
      if removed {
        dir := Some(dir.value - {FileName(name)});
      } else {
        assert dir.value - {FileName(name)} == dir.value;
      }
      forall n | n != name ensures FileName(n) != FileName(name) {
        if FileName(n) == FileName(name) { FileNameInjective(n, name); }
      }
    }

    /** `load(name)` on the current directory. */
    function Load(name: string): (r: Result<Option<Tool>, ReadError>)
      reads this
      ensures r == LoadFrom(codec, dir, name)
    {
      LoadFrom(codec, dir, name)
    }

    /** `loadAll()` on the current directory. */
    function LoadAll(): (r: Result<seq<Tool>, ReadError>)
      reads this
      ensures r == LoadAllFrom(codec, dir)
    {
      LoadAllFrom(codec, dir)
    }

    /** `list()` on the current directory. */
    function List(): (r: seq<string>)
      reads this
      ensures r == ListFrom(dir)
    {
      ListFrom(dir)
    }
  }
}
