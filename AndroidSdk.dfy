/** The Conan recipe that packages the Android SDK command-line tools
    (conan/recipes/android-sdk/conanfile.py): the configuration it accepts,
    how it recognises the executables among the unpacked tools and makes them
    executable, and the guard that copies the SDK into the package once.

    Files are byte contents (`int`s in 0..255) and permission modes; the
    walk of the tools folder is the sequence of paths it yields. */
module AndroidSdk {
  import opened Wrappers
  import Text

  const MinApiLevel := 7
  const MaxApiLevel := 32

  /** `configure`: the platform version, then the build OS, then the build
      architecture; the first one out of range is the exception's message.
      The messages print the `os` and `arch` settings `get_setting` finds,
      which are passed in. */
  function Configure(platformVersion: int, buildOS: string, buildArch: string,
                     settingOS: string, settingArch: string): (r: Option<string>)
    ensures r.None? <==> MinApiLevel <= platformVersion <= MaxApiLevel
                         && buildOS in ["Windows", "Macos", "Linux"] && buildArch == "x86_64"
    ensures !(MinApiLevel <= platformVersion <= MaxApiLevel) ==>
      r == Some("Unsupported Android platform version: " + Text.IntToString(platformVersion) + " (supported [7 ... 32])")
    ensures MinApiLevel <= platformVersion <= MaxApiLevel && buildOS !in ["Windows", "Macos", "Linux"] ==>
      r == Some("Unsupported build os: " + settingOS + ". Supported are: Windows, Macos, Linux")
    ensures MinApiLevel <= platformVersion <= MaxApiLevel && buildOS in ["Windows", "Macos", "Linux"]
            && buildArch != "x86_64" ==>
      r == Some("Unsupported build arch: " + settingArch + ". Supported is: x86_64")
  {
    if platformVersion < MinApiLevel || platformVersion > MaxApiLevel then
      Some("Unsupported Android platform version: " + Text.IntToString(platformVersion) + " (supported [7 ... 32])")
    else if buildOS !in ["Windows", "Macos", "Linux"] then
      Some("Unsupported build os: " + settingOS + ". Supported are: Windows, Macos, Linux")
    else if buildArch != "x86_64" then
      Some("Unsupported build arch: " + settingArch + ". Supported is: x86_64")
    else None
  }

  // ---------------------------------------------------------------------------
  // _fix_permissions

  datatype FileKind = Script | Elf | MachO | Other

  /** `f.read(4)`: the first four bytes, or the whole file when shorter. */
  function Signature(contents: seq<int>): (sig: seq<int>)
    ensures |sig| == if |contents| < 4 then |contents| else 4
    ensures sig == contents[..|sig|]
  {
    if |contents| < 4 then contents else contents[..4]
  }

  /** The six Mach-O signatures the recipe lists, the fifth as written. */
  const MachOSignaturesAsWritten: seq<seq<int>> := [
    [0xCA, 0xFE, 0xBA, 0xBE], [0xBE, 0xBA, 0xFE, 0xCA],
    [0xFE, 0xED, 0xFA, 0xCF], [0xCF, 0xFA, 0xED, 0xFE],
    [0xFE, 0xEF, 0xFA, 0xCE], [0xCE, 0xFA, 0xED, 0xFE]]

  /** The fifth with the 32-bit big-endian magic `FE ED FA CE`, the byte
      swap of the sixth as the third is of the fourth. */
  const MachOSignatures: seq<seq<int>> := [
    [0xCA, 0xFE, 0xBA, 0xBE], [0xBE, 0xBA, 0xFE, 0xCA],
    [0xFE, 0xED, 0xFA, 0xCF], [0xCF, 0xFA, 0xED, 0xFE],
    [0xFE, 0xED, 0xFA, 0xCE], [0xCE, 0xFA, 0xED, 0xFE]]

  const ElfSignature: seq<int> := [0x7F, 0x45, 0x4C, 0x46]

  /** How a signature is classified against a list of Mach-O signatures: a
      shebang needs more than two bytes read; ELF and Mach-O need exactly
      their four bytes. */
  function ClassifyWith(sig: seq<int>, machO: seq<seq<int>>): (r: FileKind)
    ensures r == Script <==> |sig| > 2 && sig[0] == 0x23 && sig[1] == 0x21
    ensures r == Elf <==> sig == ElfSignature
    ensures r == MachO <==> sig in machO && sig != ElfSignature && !(|sig| > 2 && sig[0] == 0x23 && sig[1] == 0x21)
  {
    if |sig| > 2 && sig[0] == 0x23 && sig[1] == 0x21 then Script
    else if sig == ElfSignature then Elf
    else if sig in machO then MachO
    else Other
  }

  /** The classification as the recipe writes it: Mach-O exactly for the six
      listed signatures, so the 32-bit big-endian magic FE ED FA CE is not
      one and FE EF FA CE is. */
  function ClassifyAsWritten(sig: seq<int>): (r: FileKind)
    ensures r == MachO <==> sig in MachOSignaturesAsWritten
    ensures sig == [0xFE, 0xED, 0xFA, 0xCE] ==> r == Other
    ensures sig == [0xFE, 0xEF, 0xFA, 0xCE] ==> r == MachO
  {
    NotScriptOrElf(MachOSignaturesAsWritten);
    ClassifyWith(sig, MachOSignaturesAsWritten)
  }

  /** The classification the model uses, with the corrected fifth Mach-O
      signature: FE ED FA CE is Mach-O and FE EF FA CE is not. */
  function Classify(sig: seq<int>): (r: FileKind)
    ensures r == MachO <==> sig in MachOSignatures
    ensures sig == [0xFE, 0xED, 0xFA, 0xCE] ==> r == MachO
    ensures sig == [0xFE, 0xEF, 0xFA, 0xCE] ==> r == Other
  {
    NotScriptOrElf(MachOSignatures);
    ClassifyWith(sig, MachOSignatures)
  }

  /** Every Mach-O signature of either list is four bytes, neither ELF's nor a shebang. */
  lemma NotScriptOrElf(machO: seq<seq<int>>)
    requires machO == MachOSignatures || machO == MachOSignaturesAsWritten
    ensures forall m :: m in machO ==> m != ElfSignature && !(|m| > 2 && m[0] == 0x23 && m[1] == 0x21)
  {
  }

  /** As written, a 32-bit big-endian Mach-O binary is not recognised; with
      the corrected list it is, and the other signatures are classified
      alike by both. */
  lemma BigEndianMachOMissed()
    ensures ClassifyAsWritten(Signature([0xFE, 0xED, 0xFA, 0xCE, 0x00])) == Other
    ensures Classify(Signature([0xFE, 0xED, 0xFA, 0xCE, 0x00])) == MachO
    ensures forall sig :: sig != [0xFE, 0xED, 0xFA, 0xCE] && sig != [0xFE, 0xEF, 0xFA, 0xCE] ==>
      ClassifyAsWritten(sig) == Classify(sig)
  {
    assert Signature([0xFE, 0xED, 0xFA, 0xCE, 0x00]) == [0xFE, 0xED, 0xFA, 0xCE];
    assert [0xFE, 0xED, 0xFA, 0xCE] in MachOSignatures;
    forall s: seq<int> | s != [0xFE, 0xED, 0xFA, 0xCE] && s != [0xFE, 0xEF, 0xFA, 0xCE]
      ensures ClassifyAsWritten(s) == Classify(s)
    {
      assert (s in MachOSignaturesAsWritten) == (s in MachOSignatures);
    }
  }

  /** A two-byte "#!" file is read whole but is not a script, and neither is
      any file shorter than an ELF or Mach-O signature recognised as one. */
  lemma ShortFilesNotExecutable(contents: seq<int>)
    requires |contents| <= 2
    ensures Classify(Signature(contents)) == Other
  {
    var sig := Signature(contents);
    assert sig != ElfSignature && sig !in MachOSignatures by {
      assert forall m :: m in MachOSignatures ==> |m| == 4;
    }
  }

  /** Whether `_fix_permissions` makes a file with these contents executable. */
  predicate Executable(contents: seq<int>)
  {
    Classify(Signature(contents)) != Other
  }

  /** The files among `walked` that `_fix_permissions` makes executable. */
  function ExecutablesAmong(contents: map<string, seq<int>>, walked: seq<string>): (r: set<string>)
    requires forall f :: f in walked ==> f in contents
    ensures forall f :: f in r ==> f in walked
  {
    if walked == [] then {}
    else
      var init := ExecutablesAmong(contents, walked[..|walked| - 1]);
      var last := walked[|walked| - 1];
      if Executable(contents[last]) then init + {last} else init
  }

  /** A file is among the executables exactly when it was walked and its
      first bytes are a script, ELF or Mach-O signature. */
  lemma {:induction false} ExecutablesAmongMeaning(contents: map<string, seq<int>>, walked: seq<string>, f: string)
    requires forall g :: g in walked ==> g in contents
    ensures f in ExecutablesAmong(contents, walked) <==> f in walked && Executable(contents[f])
  {
    if walked != [] {
      var init := walked[..|walked| - 1];
      assert walked == init + [walked[|walked| - 1]];
      ExecutablesAmongMeaning(contents, init, f);
    }
  }

  /** `| 0o111`: the execute bit for owner, group and others. */
  const ExecuteBits: bv32 := 0x49

  /** `mode | 0o111`. */
  function AddExecute(mode: bv32): (r: bv32)
    ensures r & ExecuteBits == ExecuteBits
    ensures r & !ExecuteBits == mode & !ExecuteBits
  {
    mode | ExecuteBits
  }

  /** Adding the execute bits keeps every bit the mode had. */
  lemma AddExecuteKeepsBits(mode: bv32)
    ensures AddExecute(mode) & mode == mode
  {
  }

  /** Adding the execute bits twice is adding them once. */
  lemma AddExecuteIdempotent(mode: bv32)
    ensures AddExecute(AddExecute(mode)) == AddExecute(mode)
  {
  }

  /** The modes after the walk: every file in `executables` has the execute
      bits added, on a POSIX system only; nothing else changes. */
  function FixedModes(modes: map<string, bv32>, executables: set<string>, posix: bool): (r: map<string, bv32>)
    ensures r.Keys == modes.Keys
    ensures !posix ==> r == modes
  {
    map f | f in modes :: if posix && f in executables then AddExecute(modes[f]) else modes[f]
  }

  /** Fixing permissions only adds bits: every bit a mode had, it keeps. */
  lemma FixedModesKeepBits(modes: map<string, bv32>, executables: set<string>, posix: bool)
    ensures forall f :: f in modes ==> FixedModes(modes, executables, posix)[f] & modes[f] == modes[f]
  {
    var r := FixedModes(modes, executables, posix);
    forall f | f in modes
      ensures r[f] & modes[f] == modes[f]
    {
      AddExecuteKeepsBits(modes[f]);
    }
  }

  /** Two maps with the same keys and the same value at each key are equal. */
  lemma MapsEqual(a: map<string, bv32>, b: map<string, bv32>)
    requires a.Keys == b.Keys
    requires forall k | k in a :: a[k] == b[k]
    ensures a == b
  {
  }

  /** One file's mode after the fix. */
  lemma FixedModeOf(modes: map<string, bv32>, executables: set<string>, g: string)
    requires g in modes
    ensures FixedModes(modes, executables, true)[g] == if g in executables then AddExecute(modes[g]) else modes[g]
  {
  }

  /** One more executable, file by file: that file's mode gains the execute
      bits, every other file's mode is as before. */
  lemma FixedModesAddOneAt(modes: map<string, bv32>, executables: set<string>, f: string, g: string)
    requires f in modes && g in modes
    ensures var before := FixedModes(modes, executables, true);
      FixedModes(modes, executables + {f}, true)[g] == before[f := AddExecute(before[f])][g]
  {
    FixedModeOf(modes, executables + {f}, g);
    FixedModeOf(modes, executables, g);
    if g == f {
      AddExecuteIdempotent(modes[f]);
    }
  }

  /** One more executable: the modes so far, with that file's execute bits
      added. */
  lemma FixedModesAddOne(modes: map<string, bv32>, executables: set<string>, f: string)
    requires f in modes
    ensures var before := FixedModes(modes, executables, true);
      FixedModes(modes, executables + {f}, true) == before[f := AddExecute(before[f])]
  {
    var before := FixedModes(modes, executables, true);
    var after := FixedModes(modes, executables + {f}, true);
    var expected := before[f := AddExecute(before[f])];
    forall g | g in after
      ensures after[g] == expected[g]
    {
      FixedModesAddOneAt(modes, executables, f, g);
    }
    MapsEqual(after, expected);
  }

  /** Fixing the permissions twice is fixing them once. */
  lemma FixedModesIdempotent(modes: map<string, bv32>, executables: set<string>, posix: bool)
    ensures FixedModes(FixedModes(modes, executables, posix), executables, posix)
         == FixedModes(modes, executables, posix)
  {
    var once := FixedModes(modes, executables, posix);
    forall f | f in modes
      ensures FixedModes(once, executables, posix)[f] == once[f]
    {
      AddExecuteIdempotent(modes[f]);
    }
  }

  /** The unpacked tools folder: each file's contents and permission mode. */
  class ToolsFolder {
    const contents: map<string, seq<int>>
    var modes: map<string, bv32>

    constructor(contents: map<string, seq<int>>, modes: map<string, bv32>)
      ensures this.contents == contents && this.modes == modes
    {
      this.contents := contents;
      this.modes := modes;
    }

    /** `_chmod_plus_x`: the execute bits are added on a POSIX system. */
    method ChmodPlusX(filename: string, posix: bool)
      requires filename in modes
      modifies this`modes
      ensures posix ==> modes == old(modes)[filename := AddExecute(old(modes)[filename])]
      ensures !posix ==> modes == old(modes)
    {
      if posix {
        modes := modes[filename := AddExecute(modes[filename])];
      }
    }

    /** `_fix_permissions` over the files the walk yields: nothing on a
        system that is not POSIX; otherwise each script, ELF or Mach-O file
        is made executable. */
    method FixPermissions(walked: seq<string>, posix: bool)
      requires forall f :: f in walked ==> f in contents && f in modes
      modifies this`modes
      ensures modes == FixedModes(old(modes), ExecutablesAmong(contents, walked), posix)
    {
      if !posix {
        return;
      }
      var i := 0;
      while i < |walked|
        invariant 0 <= i <= |walked|
        invariant modes == FixedModes(old(modes), ExecutablesAmong(contents, walked[..i]), posix)
      {
        var filename := walked[i];
        var sig := Signature(contents[filename]);
        var kind := Classify(sig);
        assert walked[..i + 1][..i] == walked[..i];
        if kind != Other {
          FixedModesAddOne(old(modes), ExecutablesAmong(contents, walked[..i]), filename);
          ChmodPlusX(filename, posix);
        }
        i := i + 1;
      }
      assert walked[..i] == walked;
    }
  }

  // ---------------------------------------------------------------------------
  // package

  /** The subtrees `package` copies, in order. */
  const Subtrees: seq<string> := ["build-tools", "licenses", "platforms", "tools"]

  class Recipe {
    var sdkCopied: bool
    /** The subtrees copied into the package so far, in order. */
    var copied: seq<string>

    constructor()
      ensures !sdkCopied && copied == []
    {
      sdkCopied := false;
      copied := [];
    }

    /** `package`: the four subtrees are copied only while `sdk_copied` is
        false, which it then becomes. */
    method Package()
      modifies this
      ensures sdkCopied
      ensures !old(sdkCopied) ==> copied == old(copied) + Subtrees
      ensures old(sdkCopied) ==> copied == old(copied)
    {
      if !sdkCopied {
        copied := copied + ["build-tools"];
        copied := copied + ["licenses"];
        copied := copied + ["platforms"];
        copied := copied + ["tools"];
        sdkCopied := true;
      }
    }
  }

  /** `package` runs twice (from the source and then from the build
      folder), and the SDK is copied once. */
  method PackageCalledTwice() returns (copied: seq<string>)
    ensures copied == Subtrees
  {
    var recipe := new Recipe();
    recipe.Package();
    recipe.Package();
    copied := recipe.copied;
  }
}
