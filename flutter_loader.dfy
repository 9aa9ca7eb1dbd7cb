/**
 * FlutterLoader (Android): the guards of its three-step initialisation
 * (not started, started, initialised), the shell-argument list it hands to
 * the engine, and the lookup keys it builds for assets in the APK.
 *
 * The main-thread check, the background initialisation task, the metadata
 * bundle, the memory-derived default heap size and the native init call are
 * inputs of the operations below.
 */
module Loader {
  import opened Wrappers

  // ---------------------------------------------------------------------
  // Constants
  // ---------------------------------------------------------------------

  /** File.separator on Android. */
  const Separator := "/"

  const DefaultLibrary := "libflutter.so"
  const DefaultKernelBlob := "kernel_blob.bin"
  const VmServiceSnapshotLibrary := "libvmservice_snapshot.so"

  const IcuSymbolPrefixArg := "--icu-symbol-prefix=_binary_icudtl_dat"
  const SnapshotAssetPathFlag := "--snapshot-asset-path="
  const VmSnapshotDataFlag := "--vm-snapshot-data="
  const IsolateSnapshotDataFlag := "--isolate-snapshot-data="
  const AotSharedLibraryNameFlag := "--aot-shared-library-name="
  const VmServiceFlag := "--aot-vmservice-shared-library-name="
  const VmServiceArg := VmServiceFlag + VmServiceSnapshotLibrary
  const CacheDirPathFlag := "--cache-dir-path="
  const DomainNetworkPolicyFlag := "--domain-network-policy="
  const LogTagFlag := "--log-tag="
  const OldGenHeapSizeFlag := "--old-gen-heap-size="
  const PrefetchedFontManagerArg := "--prefetched-default-font-manager"
  const EnableSkParagraphArg := "--enable-skparagraph"

  // ---------------------------------------------------------------------
  // Data model
  // ---------------------------------------------------------------------

  /** FlutterLoader.Settings: an optional log tag. */
  datatype Settings = Settings(logTag: Option<string>)

  /** What ApplicationInfoLoader read from the application's manifest. */
  datatype FlutterApplicationInfo = FlutterApplicationInfo(
    aotSharedLibraryName: string,
    vmSnapshotData: string,
    isolateSnapshotData: string,
    flutterAssetsDir: string,
    domainNetworkPolicy: Option<string>,
    nativeLibraryDir: string,
    automaticallyRegisterPlugins: bool)

  /** The three directories the background initialisation task reports. */
  datatype InitResult = InitResult(appStoragePath: string, engineCachesPath: string, dataDirPath: string)

  /** io.flutter.BuildConfig. */
  datatype BuildConfig = BuildConfig(debug: bool, jitRelease: bool, profile: bool)

  /**
   * The application's metadata bundle when it is present: the old-generation
   * heap size (0 when the key is missing) and the SkParagraph switch (false
   * when missing).
   */
  datatype MetaData = MetaData(oldGenHeapSize: int, enableSkParagraph: bool)

  /** Everything the engine's own arguments are computed from. */
  datatype LaunchContext = LaunchContext(
    build: BuildConfig,
    info: FlutterApplicationInfo,
    settings: Settings,
    result: InitResult,
    metaData: Option<MetaData>,
    defaultOldGenHeapSize: int)

  // ---------------------------------------------------------------------
  // Strings
  // ---------------------------------------------------------------------

  predicate StartsWith(s: string, prefix: string)
  {
    |prefix| <= |s| && s[..|prefix|] == prefix
  }

  /** Some element of `args` begins with `prefix`. */
  predicate HasArgWithPrefix(args: seq<string>, prefix: string)
  {
    exists i :: 0 <= i < |args| && StartsWith(args[i], prefix)
  }

  function DigitChar(d: nat): char
    requires d < 10
  {
    "0123456789"[d]
  }

  function DigitValue(c: char): int
  {
    c as int - '0' as int
  }

  /** The decimal digits of `n`, most significant first. */
  function NatToString(n: nat): (s: string)
    ensures |s| >= 1
    ensures forall i :: 0 <= i < |s| ==> '0' <= s[i] <= '9'
  {
    if n < 10 then [DigitChar(n)] else NatToString(n / 10) + [DigitChar(n % 10)]
  }

  /** The value of a string of decimal digits. */
  function DecimalValue(s: string): int
  {
    if s == [] then 0 else 10 * DecimalValue(s[..|s| - 1]) + DigitValue(s[|s| - 1])
  }

  /** Java's decimal rendering of an int. */
  function IntToString(n: int): (s: string)
    ensures |s| >= 1
  {
    if n < 0 then "-" + NatToString(-n) else NatToString(n)
  }

  /** Reads back what IntToString writes. */
  function ParseInt(s: string): int
  {
    if |s| > 0 && s[0] == '-' then -DecimalValue(s[1..]) else DecimalValue(s)
  }

  lemma {:induction false} NatToStringRoundTrip(n: nat)
    ensures DecimalValue(NatToString(n)) == n
  {
    if n >= 10 {
      NatToStringRoundTrip(n / 10);
      var s := NatToString(n);
      assert s[..|s| - 1] == NatToString(n / 10);
    }
  }

  /** The heap-size argument's number reads back as the size itself. */
  lemma IntToStringRoundTrip(n: int)
    ensures ParseInt(IntToString(n)) == n
  {
    var s := IntToString(n);
    if n < 0 {
      assert s[1..] == NatToString(-n);
      NatToStringRoundTrip(-n);
    } else {
      assert s[0] != '-';
      NatToStringRoundTrip(n);
    }
  }

  /** Distinct heap sizes give distinct arguments. */
  lemma IntToStringInjective(m: int, n: int)
    requires IntToString(m) == IntToString(n)
    ensures m == n
  {
    IntToStringRoundTrip(m);
    IntToStringRoundTrip(n);
  }

  // ---------------------------------------------------------------------
  // Asset lookup keys. The loader's methods read the assets directory from
  // its application info; here it is a parameter.
  // ---------------------------------------------------------------------

  /** fullAssetPathFrom: the path of `filePath` inside the Flutter assets directory. */
  function FullAssetPathFrom(assetsDir: string, filePath: string): (r: string)
    ensures |r| == |assetsDir| + 1 + |filePath|
    ensures StartsWith(r, assetsDir + Separator) && r[|assetsDir| + 1..] == filePath
  {
    assetsDir + Separator + filePath
  }

  /** getLookupKeyForAsset(asset). */
  function GetLookupKeyForAsset(assetsDir: string, asset: string): (r: string)
    ensures StartsWith(r, assetsDir + Separator) && r[|assetsDir| + 1..] == asset
  {
    FullAssetPathFrom(assetsDir, asset)
  }

  /** getLookupKeyForAsset(asset, packageName): the asset under "packages/<packageName>/". */
  function GetLookupKeyForPackageAsset(assetsDir: string, asset: string, packageName: string): (r: string)
    ensures r == assetsDir + "/packages/" + packageName + "/" + asset
  {
    assert "packages" + Separator + packageName + Separator + asset
        == "packages/" + packageName + "/" + asset;
    GetLookupKeyForAsset(assetsDir, "packages" + Separator + packageName + Separator + asset)
  }

  /** Within one assets directory, distinct assets have distinct lookup keys. */
  lemma LookupKeyInjective(assetsDir: string, a: string, b: string)
    requires GetLookupKeyForAsset(assetsDir, a) == GetLookupKeyForAsset(assetsDir, b)
    ensures a == b
  {
    var ka := GetLookupKeyForAsset(assetsDir, a);
    assert a == ka[|assetsDir| + 1..];
  }

  /** Distinct (package, asset) pairs have distinct lookup keys when package names hold no separator. */
  lemma PackageLookupKeyInjective(assetsDir: string, a: string, p: string, b: string, q: string)
    requires '/' !in p && '/' !in q
    requires GetLookupKeyForPackageAsset(assetsDir, a, p) == GetLookupKeyForPackageAsset(assetsDir, b, q)
    ensures p == q && a == b
  {
    var x := "packages/" + p + "/" + a;
    var y := "packages/" + q + "/" + b;
    assert GetLookupKeyForAsset(assetsDir, x) == GetLookupKeyForPackageAsset(assetsDir, a, p);
    assert GetLookupKeyForAsset(assetsDir, y) == GetLookupKeyForPackageAsset(assetsDir, b, q);
    LookupKeyInjective(assetsDir, x, y);
    var n := |"packages/"|;
    assert x[n..] == p + "/" + a;
    assert y[n..] == q + "/" + b;
    SplitAtFirstSeparator(p, a, q, b);
  }

  /** A string splits uniquely at its first separator. */
  lemma SplitAtFirstSeparator(p: string, a: string, q: string, b: string)
    requires '/' !in p && '/' !in q
    requires p + "/" + a == q + "/" + b
    ensures p == q && a == b
  {
    var s := p + "/" + a;
    if |p| < |q| {
      SeparatorInside(p, a, q, b);
      assert false;
    } else if |q| < |p| {
      SeparatorInside(q, b, p, a);
      assert false;
    } else {
      assert p == s[..|p|] && q == s[..|q|];
      assert a == s[|p| + 1..] && b == s[|q| + 1..];
    }
  }

  /** When the first part is the shorter, the separator after it falls inside the other. */
  lemma SeparatorInside(p: string, a: string, q: string, b: string)
    requires |p| < |q| && p + "/" + a == q + "/" + b
    ensures q[|p|] == '/'
  {
    var s := p + "/" + a;
    assert s[|p|] == '/';
    assert s[|p|] == (q + "/" + b)[|p|];
  }

  // ---------------------------------------------------------------------
  // Shell arguments: the list ensureInitializationComplete passes to the
  // engine, one function per argument and one per segment.
  // ---------------------------------------------------------------------

  /** A prefix fixes the leading characters. */
  lemma PrefixChar(s: string, prefix: string, k: int)
    requires StartsWith(s, prefix) && 0 <= k < |prefix|
    ensures s[k] == prefix[k]
  {
    assert s[..|prefix|][k] == s[k];
  }

  function IcuNativeLibPathArg(info: FlutterApplicationInfo): string
  {
    "--icu-native-lib-path=" + info.nativeLibraryDir + Separator + DefaultLibrary
  }

  function SnapshotAssetPathArg(ctx: LaunchContext): (r: string)
    ensures |r| >= 3 && r[2] == 's'
  {
    SnapshotAssetPathFlag + SnapshotAssetPath(ctx)
  }

  function VmSnapshotDataArg(ctx: LaunchContext): (r: string)
    ensures |r| >= 3 && r[2] == 'v'
  {
    VmSnapshotDataFlag + ctx.info.vmSnapshotData
  }

  function IsolateSnapshotDataArg(ctx: LaunchContext): (r: string)
    ensures |r| >= 3 && r[2] == 'i'
  {
    IsolateSnapshotDataFlag + ctx.info.isolateSnapshotData
  }

  /** The AOT library by its bare name. */
  function AotLibraryNameArg(ctx: LaunchContext): (r: string)
    ensures StartsWith(r, AotSharedLibraryNameFlag)
  {
    AotSharedLibraryNameFlag + ctx.info.aotSharedLibraryName
  }

  /** The AOT library by its full path, for devices where the bare name fails to load. */
  function AotLibraryPathArg(ctx: LaunchContext): (r: string)
    ensures StartsWith(r, AotSharedLibraryNameFlag)
  {
    AotSharedLibraryNameFlag + ctx.info.nativeLibraryDir + Separator + ctx.info.aotSharedLibraryName
  }

  function CacheDirPathArg(ctx: LaunchContext): (r: string)
    ensures |r| >= 3 && r[2] == 'c'
  {
    CacheDirPathFlag + ctx.result.engineCachesPath
  }

  function DomainNetworkPolicyArg(policy: string): (r: string)
    ensures StartsWith(r, DomainNetworkPolicyFlag) && r[2] == 'd'
  {
    DomainNetworkPolicyFlag + policy
  }

  function LogTagArg(tag: string): (r: string)
    ensures StartsWith(r, LogTagFlag) && r[2] == 'l'
  {
    LogTagFlag + tag
  }

  function OldGenHeapSizeArg(megaBytes: int): (r: string)
    ensures |r| >= 3 && r[2] == 'o'
  {
    OldGenHeapSizeFlag + IntToString(megaBytes)
  }

  /** A null argument array adds nothing. */
  function CallerArgs(args: Option<seq<string>>): seq<string>
  {
    match args
    case None => []
    case Some(a) => a
  }

  /** Debug and JIT-release builds run from a kernel snapshot rather than AOT code. */
  predicate UsesKernel(build: BuildConfig)
  {
    build.debug || build.jitRelease
  }

  function SnapshotAssetPath(ctx: LaunchContext): string
  {
    ctx.result.dataDirPath + Separator + ctx.info.flutterAssetsDir
  }

  /** The kernel path handed to the native init call; null in AOT builds. */
  function KernelPath(ctx: LaunchContext): Option<string>
  {
    if UsesKernel(ctx.build) then Some(SnapshotAssetPath(ctx) + Separator + DefaultKernelBlob) else None
  }

  /** The build-mode segment. */
  function ModeArgs(ctx: LaunchContext): seq<string>
  {
    if UsesKernel(ctx.build) then
      [SnapshotAssetPathArg(ctx), VmSnapshotDataArg(ctx), IsolateSnapshotDataArg(ctx)]
    else
      [AotLibraryNameArg(ctx), AotLibraryPathArg(ctx)] + (if ctx.build.profile then [VmServiceArg] else [])
  }

  /** The metadata heap size, or the default when the bundle is missing or says 0. */
  function OldGenHeapSize(ctx: LaunchContext): int
  {
    var fromMetaData := if ctx.metaData.Some? then ctx.metaData.value.oldGenHeapSize else 0;
    if fromMetaData == 0 then ctx.defaultOldGenHeapSize else fromMetaData
  }

  predicate SkParagraphEnabled(ctx: LaunchContext)
  {
    ctx.metaData.Some? && ctx.metaData.value.enableSkParagraph
  }

  /** The segment after the build-mode arguments. */
  function TailArgs(ctx: LaunchContext): seq<string>
  {
    [CacheDirPathArg(ctx)]
    + (if ctx.info.domainNetworkPolicy.Some? then [DomainNetworkPolicyArg(ctx.info.domainNetworkPolicy.value)] else [])
    + (if ctx.settings.logTag.Some? then [LogTagArg(ctx.settings.logTag.value)] else [])
    + [OldGenHeapSizeArg(OldGenHeapSize(ctx)), PrefetchedFontManagerArg]
    + (if SkParagraphEnabled(ctx) then [EnableSkParagraphArg] else [])
  }

  /** Everything the loader itself adds after the caller's arguments. */
  function EngineArgs(ctx: LaunchContext): seq<string>
  {
    ModeArgs(ctx) + TailArgs(ctx)
  }

  /** The whole list: the two ICU arguments, the caller's, then the loader's own. */
  function ShellArgs(args: Option<seq<string>>, ctx: LaunchContext): seq<string>
  {
    [IcuSymbolPrefixArg, IcuNativeLibPathArg(ctx.info)] + CallerArgs(args) + EngineArgs(ctx)
  }

  /**
   * Builds the list by successive additions, as ensureInitializationComplete
   * does, and computes the kernel path beside it.
   */
  method BuildShellArgs(args: Option<seq<string>>, ctx: LaunchContext)
    returns (shellArgs: seq<string>, kernelPath: Option<string>)
    ensures shellArgs == ShellArgs(args, ctx)
    ensures kernelPath == KernelPath(ctx)
  {
    shellArgs := [];
    shellArgs := shellArgs + [IcuSymbolPrefixArg];
    shellArgs := shellArgs + [IcuNativeLibPathArg(ctx.info)];
    if args.Some? {
      shellArgs := AddAll(shellArgs, args.value);
    }
    shellArgs, kernelPath := AddModeArgs(shellArgs, ctx);
    shellArgs := AddTailArgs(shellArgs, ctx);
    assert shellArgs == [IcuSymbolPrefixArg, IcuNativeLibPathArg(ctx.info)] + CallerArgs(args) + ModeArgs(ctx) + TailArgs(ctx);
  }

  /** Collections.addAll: appends `args` one by one. */
  method AddAll(shellArgs: seq<string>, args: seq<string>) returns (r: seq<string>)
    ensures r == shellArgs + args
  {
    r := shellArgs;
    for i := 0 to |args|
      invariant r == shellArgs + args[..i]
    {
      assert args[..i + 1] == args[..i] + [args[i]];
      r := r + [args[i]];
    }
    assert args[..|args|] == args;
  }

  /** The build-mode branch: snapshot arguments and a kernel path, or the AOT library arguments. */
  method AddModeArgs(shellArgs: seq<string>, ctx: LaunchContext) returns (r: seq<string>, kernelPath: Option<string>)
    ensures r == shellArgs + ModeArgs(ctx)
    ensures kernelPath == KernelPath(ctx)
  {
    r := shellArgs;
    kernelPath := None;
    if ctx.build.debug || ctx.build.jitRelease {
      var snapshotAssetPath := ctx.result.dataDirPath + Separator + ctx.info.flutterAssetsDir;
      kernelPath := Some(snapshotAssetPath + Separator + DefaultKernelBlob);
      r := r + [SnapshotAssetPathArg(ctx)];
      r := r + [VmSnapshotDataArg(ctx)];
      r := r + [IsolateSnapshotDataArg(ctx)];
    } else {
      r := r + [AotLibraryNameArg(ctx)];
      r := r + [AotLibraryPathArg(ctx)];
      if ctx.build.profile {
        r := r + [VmServiceArg];
      }
    }
  }

  /** The arguments after the build-mode branch, each conditional one only when its value is there. */
  method AddTailArgs(shellArgs: seq<string>, ctx: LaunchContext) returns (r: seq<string>)
    ensures r == shellArgs + TailArgs(ctx)
  {
    r := shellArgs + [CacheDirPathArg(ctx)];
    ghost var added := [CacheDirPathArg(ctx)];
    if ctx.info.domainNetworkPolicy.Some? {
      r := r + [DomainNetworkPolicyArg(ctx.info.domainNetworkPolicy.value)];
      added := added + [DomainNetworkPolicyArg(ctx.info.domainNetworkPolicy.value)];
    }
    if ctx.settings.logTag.Some? {
      r := r + [LogTagArg(ctx.settings.logTag.value)];
      added := added + [LogTagArg(ctx.settings.logTag.value)];
    }
    assert r == shellArgs + added;
    var oldGenHeapSizeMegaBytes := if ctx.metaData.Some? then ctx.metaData.value.oldGenHeapSize else 0;
    if oldGenHeapSizeMegaBytes == 0 {
      oldGenHeapSizeMegaBytes := ctx.defaultOldGenHeapSize;
    }
    assert oldGenHeapSizeMegaBytes == OldGenHeapSize(ctx);
    r := r + [OldGenHeapSizeArg(oldGenHeapSizeMegaBytes)];
    r := r + [PrefetchedFontManagerArg];
    added := added + [OldGenHeapSizeArg(OldGenHeapSize(ctx)), PrefetchedFontManagerArg];
    assert r == shellArgs + added;
    if ctx.metaData.Some? && ctx.metaData.value.enableSkParagraph {
      r := r + [EnableSkParagraphArg];
      added := added + [EnableSkParagraphArg];
    }
    assert r == shellArgs + added;
    assert added == TailArgs(ctx);
  }

  // ---------------------------------------------------------------------
  // Properties of the shell arguments
  // ---------------------------------------------------------------------

  /** The list opens with the two ICU arguments, then the caller's arguments in their order. */
  lemma ShellArgsBeginWithIcuThenCallerArgs(args: Option<seq<string>>, ctx: LaunchContext)
    ensures var s := ShellArgs(args, ctx);
            |s| == 2 + |CallerArgs(args)| + |EngineArgs(ctx)|
            && s[0] == "--icu-symbol-prefix=_binary_icudtl_dat"
            && s[1] == "--icu-native-lib-path=" + ctx.info.nativeLibraryDir + "/libflutter.so"
            && s[2..2 + |CallerArgs(args)|] == CallerArgs(args)
            && s[2 + |CallerArgs(args)|..] == EngineArgs(ctx)
  {
    var s := ShellArgs(args, ctx);
    var c := CallerArgs(args);
    assert s == [IcuSymbolPrefixArg, IcuNativeLibPathArg(ctx.info)] + (c + EngineArgs(ctx));
    assert Separator + DefaultLibrary == "/libflutter.so";
  }

  /** The third character of every engine argument, which tells the flags apart. */
  lemma EngineArgThirdChar(ctx: LaunchContext, i: int)
    requires 0 <= i < |EngineArgs(ctx)|
    ensures var a := EngineArgs(ctx)[i];
            |a| >= 7
            && (UsesKernel(ctx.build) && i < 3 ==> a[2] in {'s', 'v', 'i'})
            && (!UsesKernel(ctx.build) && i < 2 ==> StartsWith(a, AotSharedLibraryNameFlag))
            && (!UsesKernel(ctx.build) && i == 2 && ctx.build.profile ==> a == VmServiceArg)
            && (i >= |ModeArgs(ctx)| ==> a == TailArgs(ctx)[i - |ModeArgs(ctx)|] && a[2] in {'c', 'd', 'l', 'o', 'p', 'e'})
  {
    var m := ModeArgs(ctx);
    var e := EngineArgs(ctx);
    if i < |m| {
      assert e[i] == m[i];
      if !UsesKernel(ctx.build) && i < 2 {
        assert |AotSharedLibraryNameFlag| >= 7;
      }
    } else {
      var t := TailArgs(ctx);
      assert e[i] == t[i - |m|];
    }
  }

  /**
   * Debug / JIT release: the kernel lives at <dataDir>/<assetsDir>/kernel_blob.bin,
   * the snapshot path, the VM snapshot and the isolate snapshot come first, and
   * no AOT library is named.
   */
  lemma KernelBuildArgs(ctx: LaunchContext)
    requires ctx.build.debug || ctx.build.jitRelease
    ensures KernelPath(ctx) == Some(ctx.result.dataDirPath + "/" + ctx.info.flutterAssetsDir + "/kernel_blob.bin")
    ensures var e := EngineArgs(ctx);
            |e| >= 3
            && e[0] == "--snapshot-asset-path=" + ctx.result.dataDirPath + "/" + ctx.info.flutterAssetsDir
            && e[1] == "--vm-snapshot-data=" + ctx.info.vmSnapshotData
            && e[2] == "--isolate-snapshot-data=" + ctx.info.isolateSnapshotData
    ensures !HasArgWithPrefix(EngineArgs(ctx), AotSharedLibraryNameFlag)
  {
    var e := EngineArgs(ctx);
    assert Separator + DefaultKernelBlob == "/kernel_blob.bin";
    assert (SnapshotAssetPath(ctx) + Separator) + DefaultKernelBlob
        == SnapshotAssetPath(ctx) + (Separator + DefaultKernelBlob);
    assert e[0] == ModeArgs(ctx)[0] && e[1] == ModeArgs(ctx)[1] && e[2] == ModeArgs(ctx)[2];
    assert AotSharedLibraryNameFlag[2] == 'a';
    forall i | 0 <= i < |e|
      ensures !StartsWith(e[i], AotSharedLibraryNameFlag)
    {
      EngineArgThirdChar(ctx, i);
      if StartsWith(e[i], AotSharedLibraryNameFlag) {
        PrefixChar(e[i], AotSharedLibraryNameFlag, 2);
      }
    }
  }

  /**
   * AOT builds: no kernel path; the AOT library flag appears exactly twice,
   * first with the bare library name, then with its full path.
   */
  lemma AotBuildArgs(ctx: LaunchContext)
    requires !ctx.build.debug && !ctx.build.jitRelease
    ensures KernelPath(ctx) == None
    ensures var e := EngineArgs(ctx);
            |e| >= 2
            && e[0] == "--aot-shared-library-name=" + ctx.info.aotSharedLibraryName
            && e[1] == "--aot-shared-library-name=" + ctx.info.nativeLibraryDir + "/" + ctx.info.aotSharedLibraryName
            && forall i :: 2 <= i < |e| ==> !StartsWith(e[i], AotSharedLibraryNameFlag)
  {
    var e := EngineArgs(ctx);
    assert e[0] == ModeArgs(ctx)[0] && e[1] == ModeArgs(ctx)[1];
    assert AotSharedLibraryNameFlag[2] == 'a' && AotSharedLibraryNameFlag[6] == 's';
    assert VmServiceFlag[6] == 'v' && VmServiceArg[6] == VmServiceFlag[6];
    forall i | 2 <= i < |e|
      ensures !StartsWith(e[i], AotSharedLibraryNameFlag)
    {
      EngineArgThirdChar(ctx, i);
      if StartsWith(e[i], AotSharedLibraryNameFlag) {
        PrefixChar(e[i], AotSharedLibraryNameFlag, 2);
        PrefixChar(e[i], AotSharedLibraryNameFlag, 6);
      }
    }
  }

  /** The VM service library flag is present exactly in profile AOT builds. */
  lemma VmServiceArgOnlyInProfile(ctx: LaunchContext)
    ensures VmServiceArg in EngineArgs(ctx) <==> !UsesKernel(ctx.build) && ctx.build.profile
    ensures VmServiceArg == "--aot-vmservice-shared-library-name=" + "libvmservice_snapshot.so"
  {
    var e := EngineArgs(ctx);
    if VmServiceArg in e {
      var i :| 0 <= i < |e| && e[i] == VmServiceArg;
      VmServiceArgPosition(ctx, i);
    }
    if !UsesKernel(ctx.build) && ctx.build.profile {
      assert e[2] == ModeArgs(ctx)[2];
    }
  }

  /** Where the VM service flag can stand: third, after the two AOT library arguments, of a profile build. */
  lemma VmServiceArgPosition(ctx: LaunchContext, i: int)
    requires 0 <= i < |EngineArgs(ctx)| && EngineArgs(ctx)[i] == VmServiceArg
    ensures !UsesKernel(ctx.build) && ctx.build.profile && i == 2
  {
    var a := EngineArgs(ctx)[i];
    assert VmServiceFlag[2] == 'a' && VmServiceFlag[6] == 'v' && AotSharedLibraryNameFlag[6] == 's';
    assert a[2] == VmServiceFlag[2] && a[6] == VmServiceFlag[6];
    EngineArgThirdChar(ctx, i);
    if !UsesKernel(ctx.build) && i < 2 {
      PrefixChar(a, AotSharedLibraryNameFlag, 6);
    }
  }

  /** The cache directory opens the tail; the heap size and font-manager arguments are always there. */
  lemma AlwaysPresentTailArgs(ctx: LaunchContext)
    ensures var e := EngineArgs(ctx);
            var t := |ModeArgs(ctx)|;
            t < |e|
            && e[t] == "--cache-dir-path=" + ctx.result.engineCachesPath
            && "--old-gen-heap-size=" + IntToString(OldGenHeapSize(ctx)) in e
            && "--prefetched-default-font-manager" in e
  {
    var e := EngineArgs(ctx);
    var m := ModeArgs(ctx);
    var tail := TailArgs(ctx);
    assert e[|m|] == tail[0];
    var k := |tail| - 2 - (if SkParagraphEnabled(ctx) then 1 else 0);
    assert tail[k] == OldGenHeapSizeArg(OldGenHeapSize(ctx));
    assert tail[k + 1] == PrefetchedFontManagerArg;
    assert e[|m| + k] == tail[k];
    assert e[|m| + k + 1] == tail[k + 1];
  }

  /** A heap size of 0 in the metadata, or no metadata at all, falls back to the default. */
  lemma OldGenHeapSizeFallsBack(ctx: LaunchContext)
    ensures ctx.metaData.None? || ctx.metaData.value.oldGenHeapSize == 0 ==>
              OldGenHeapSize(ctx) == ctx.defaultOldGenHeapSize
    ensures ctx.metaData.Some? && ctx.metaData.value.oldGenHeapSize != 0 ==>
              OldGenHeapSize(ctx) == ctx.metaData.value.oldGenHeapSize
  {
  }

  /** The log tag argument is present exactly when the settings carry a tag. */
  lemma LogTagArgIffTag(ctx: LaunchContext)
    ensures HasArgWithPrefix(EngineArgs(ctx), "--log-tag=") <==> ctx.settings.logTag.Some?
    ensures ctx.settings.logTag.Some? ==> "--log-tag=" + ctx.settings.logTag.value in EngineArgs(ctx)
  {
    var e := EngineArgs(ctx);
    var m := ModeArgs(ctx);
    var tail := TailArgs(ctx);
    assert LogTagFlag[2] == 'l';
    if HasArgWithPrefix(e, LogTagFlag) {
      var i :| 0 <= i < |e| && StartsWith(e[i], LogTagFlag);
      PrefixChar(e[i], LogTagFlag, 2);
      EngineArgThirdChar(ctx, i);
      if i >= |m| {
        TailLogTag(ctx, i - |m|);
      }
    }
    if ctx.settings.logTag.Some? {
      var j := if ctx.info.domainNetworkPolicy.Some? then 2 else 1;
      assert tail[j] == LogTagArg(ctx.settings.logTag.value);
      assert e[|m| + j] == tail[j];
      assert StartsWith(e[|m| + j], LogTagFlag);
    }
  }

  /** In the tail, only the log tag argument has 'l' for its third character. */
  lemma TailLogTag(ctx: LaunchContext, j: int)
    requires 0 <= j < |TailArgs(ctx)| && TailArgs(ctx)[j][2] == 'l'
    ensures ctx.settings.logTag.Some?
  {
  }

  /** The domain network policy argument is present exactly when the manifest names a policy. */
  lemma DomainNetworkPolicyArgIffPolicy(ctx: LaunchContext)
    ensures HasArgWithPrefix(EngineArgs(ctx), "--domain-network-policy=") <==> ctx.info.domainNetworkPolicy.Some?
    ensures ctx.info.domainNetworkPolicy.Some? ==>
              "--domain-network-policy=" + ctx.info.domainNetworkPolicy.value in EngineArgs(ctx)
  {
    var e := EngineArgs(ctx);
    var m := ModeArgs(ctx);
    var tail := TailArgs(ctx);
    assert DomainNetworkPolicyFlag[2] == 'd';
    if HasArgWithPrefix(e, DomainNetworkPolicyFlag) {
      var i :| 0 <= i < |e| && StartsWith(e[i], DomainNetworkPolicyFlag);
      PrefixChar(e[i], DomainNetworkPolicyFlag, 2);
      EngineArgThirdChar(ctx, i);
      if i >= |m| {
        TailDomainNetworkPolicy(ctx, i - |m|);
      }
    }
    if ctx.info.domainNetworkPolicy.Some? {
      assert tail[1] == DomainNetworkPolicyArg(ctx.info.domainNetworkPolicy.value);
      assert e[|m| + 1] == tail[1];
      assert StartsWith(e[|m| + 1], DomainNetworkPolicyFlag);
    }
  }

  /** In the tail, only the domain network policy argument has 'd' for its third character. */
  lemma TailDomainNetworkPolicy(ctx: LaunchContext, j: int)
    requires 0 <= j < |TailArgs(ctx)| && TailArgs(ctx)[j][2] == 'd'
    ensures ctx.info.domainNetworkPolicy.Some?
  {
  }

  /** "--enable-skparagraph" is present exactly when the metadata switch is on. */
  lemma SkParagraphArgIffSwitch(ctx: LaunchContext)
    ensures "--enable-skparagraph" in EngineArgs(ctx) <==> ctx.metaData.Some? && ctx.metaData.value.enableSkParagraph
  {
    var e := EngineArgs(ctx);
    var m := ModeArgs(ctx);
    assert EnableSkParagraphArg[2] == 'e';
    if EnableSkParagraphArg in e {
      var i :| 0 <= i < |e| && e[i] == EnableSkParagraphArg;
      EngineArgThirdChar(ctx, i);
      if i >= |m| {
        TailSkParagraph(ctx, i - |m|);
      }
    }
    if SkParagraphEnabled(ctx) {
      assert e[|e| - 1] == TailArgs(ctx)[|TailArgs(ctx)| - 1];
    }
  }

  /** In the tail, only "--enable-skparagraph" has 'e' for its third character. */
  lemma TailSkParagraph(ctx: LaunchContext, j: int)
    requires 0 <= j < |TailArgs(ctx)| && TailArgs(ctx)[j][2] == 'e'
    ensures SkParagraphEnabled(ctx)
  {
  }

  // ---------------------------------------------------------------------
  // The loader
  // ---------------------------------------------------------------------

  /** What the background initialisation task's future yields. */
  datatype InitOutcome = Completed(result: InitResult) | InitTaskFailed

  /** The exceptions the guards and the initialisation raise. */
  datatype LoaderError =
    | NotOnMainThread        // IllegalStateException: not on the main thread
    | NotStarted             // IllegalStateException: startInitialization was not called
    | StartupFailed          // an exception from the synchronous part of startInitialization
    | InitializationFailed   // RuntimeException wrapping a failure of the task or of the native init

  datatype Status = Ok | Threw(error: LoaderError)

  /** The arguments of one call into the native init (the elapsed time is left out). */
  datatype NativeInitCall = NativeInitCall(
    shellArgs: seq<string>,
    kernelPath: Option<string>,
    appStoragePath: string,
    engineCachesPath: string)

  /** What ensureInitializationCompleteAsync does when its guards pass. */
  datatype AsyncAction = CallbackPosted | CompletionScheduled

  class FlutterLoader {
    var initialized: bool
    var settings: Option<Settings>
    var appInfo: Option<FlutterApplicationInfo>
    var initResultFuture: Option<InitOutcome>

    /**
     * startInitialization sets the settings, then the application info, then
     * the future, and may stop after any of them; initialisation needs all three.
     */
    ghost predicate Valid()
      reads this
    {
      (appInfo.Some? ==> settings.Some?)
      && (initResultFuture.Some? ==> appInfo.Some?)
      && (initialized ==> initResultFuture.Some?)
    }

    constructor()
      ensures Valid()
      ensures !initialized && settings.None? && appInfo.None? && initResultFuture.None?
    {
      initialized := false;
      settings := None;
      appInfo := None;
      initResultFuture := None;
    }

    /**
     * startInitialization. A second call returns before any check; the first
     * must come from the main thread. The settings are stored first, and
     * the steps after that run on the calling thread and may throw:
     * `loadedInfo` is what loading the application info yields (None when
     * it throws), `displaySetupOk` whether reading the refresh rate and
     * initialising the VSync waiter succeed, `submitOk` whether the executor
     * accepts the task, and `initTask` what the background task will deliver.
     * A throw leaves the settings (and perhaps the info) stored with no future.
     */
    method StartInitialization(newSettings: Settings, onMainThread: bool,
                               loadedInfo: Option<FlutterApplicationInfo>, displaySetupOk: bool, submitOk: bool,
                               initTask: InitOutcome)
      returns (status: Status)
      requires Valid()
      modifies this
      ensures Valid()
      ensures old(settings).Some? ==> status == Ok && unchanged(this)
      ensures old(settings).None? && !onMainThread ==> status == Threw(NotOnMainThread) && unchanged(this)
      ensures old(settings).None? && onMainThread ==>
                settings == Some(newSettings) && appInfo == loadedInfo && initialized == old(initialized)
      ensures old(settings).None? && onMainThread && (loadedInfo.None? || !displaySetupOk || !submitOk) ==>
                status == Threw(StartupFailed) && initResultFuture.None?
      ensures old(settings).None? && onMainThread && loadedInfo.Some? && displaySetupOk && submitOk ==>
                status == Ok && initResultFuture == Some(initTask)
    {
      if settings.Some? {
        return Ok;
      }
      if !onMainThread {
        return Threw(NotOnMainThread);
      }
      settings := Some(newSettings);
      if loadedInfo.None? {
        return Threw(StartupFailed);
      }
      appInfo := loadedInfo;
      if !displaySetupOk {
        return Threw(StartupFailed);
      }
      if !submitOk {
        return Threw(StartupFailed);
      }
      initResultFuture := Some(initTask);
      status := Ok;
    }

    /**
     * ensureInitializationComplete. Returns at once once initialised;
     * otherwise throws off the main thread or before startInitialization;
     * then waits for the task (a missing future or a failed task throws),
     * assembles the shell arguments, looks up the application's metadata
     * (which throws unless `appInfoLookupOk`) and calls the native init,
     * which succeeds when `nativeInitOk`. `nativeCall` records that call
     * when it was made.
     */
    method EnsureInitializationComplete(args: Option<seq<string>>, onMainThread: bool, build: BuildConfig,
                                        metaData: Option<MetaData>, defaultOldGenHeapSize: int,
                                        appInfoLookupOk: bool, nativeInitOk: bool)
      returns (status: Status, nativeCall: Option<NativeInitCall>)
      requires Valid()
      modifies this`initialized
      ensures Valid()
      ensures old(initialized) ==> status == Ok && nativeCall.None? && initialized
      ensures !old(initialized) && !onMainThread ==>
                status == Threw(NotOnMainThread) && nativeCall.None? && !initialized
      ensures !old(initialized) && onMainThread && settings.None? ==>
                status == Threw(NotStarted) && nativeCall.None? && !initialized
      ensures !old(initialized) && onMainThread && settings.Some?
              && (initResultFuture.None? || initResultFuture.value.InitTaskFailed?) ==>
                status == Threw(InitializationFailed) && nativeCall.None? && !initialized
      ensures !old(initialized) && onMainThread && settings.Some? && initResultFuture.Some?
              && initResultFuture.value.Completed? && !appInfoLookupOk ==>
                status == Threw(InitializationFailed) && nativeCall.None? && !initialized
      ensures !old(initialized) && onMainThread && settings.Some? && initResultFuture.Some?
              && initResultFuture.value.Completed? && appInfoLookupOk ==>
                var ctx := LaunchContext(build, appInfo.value, settings.value, initResultFuture.value.result,
                                         metaData, defaultOldGenHeapSize);
                nativeCall == Some(NativeInitCall(ShellArgs(args, ctx), KernelPath(ctx),
                                                  ctx.result.appStoragePath, ctx.result.engineCachesPath))
                && (nativeInitOk ==> status == Ok && initialized)
                && (!nativeInitOk ==> status == Threw(InitializationFailed) && !initialized)
    {
      nativeCall := None;
      if initialized {
        return Ok, None;
      }
      if !onMainThread {
        return Threw(NotOnMainThread), None;
      }
      if settings.None? {
        return Threw(NotStarted), None;
      }
      if initResultFuture.None? {
        return Threw(InitializationFailed), None;
      }
      match initResultFuture.value
      case InitTaskFailed =>
        status := Threw(InitializationFailed);
      case Completed(result) =>
        var ctx := LaunchContext(build, appInfo.value, settings.value, result, metaData, defaultOldGenHeapSize);
        var shellArgs, kernelPath := BuildShellArgs(args, ctx);
        if !appInfoLookupOk {
          return Threw(InitializationFailed), None;
        }
        nativeCall := Some(NativeInitCall(shellArgs, kernelPath, result.appStoragePath, result.engineCachesPath));
        if nativeInitOk {
          initialized := true;
          status := Ok;
        } else {
          status := Threw(InitializationFailed);
        }
    }

    /**
     * ensureInitializationCompleteAsync: the main-thread check, then the
     * started check; an initialised loader only posts the callback, any
     * other schedules the completion on a background thread.
     */
    method EnsureInitializationCompleteAsync(onMainThread: bool)
      returns (status: Status, action: Option<AsyncAction>)
      ensures !onMainThread ==> status == Threw(NotOnMainThread) && action.None?
      ensures onMainThread && settings.None? ==> status == Threw(NotStarted) && action.None?
      ensures onMainThread && settings.Some? && initialized ==> status == Ok && action == Some(CallbackPosted)
      ensures onMainThread && settings.Some? && !initialized ==> status == Ok && action == Some(CompletionScheduled)
    {
      if !onMainThread {
        return Threw(NotOnMainThread), None;
      }
      if settings.None? {
        return Threw(NotStarted), None;
      }
      if initialized {
        return Ok, Some(CallbackPosted);
      }
      return Ok, Some(CompletionScheduled);
    }

    /**
     * The scheduled completion: on the background thread a missing future
     * or a failed task throws there and the callback is never posted;
     * otherwise the main thread runs ensureInitializationComplete and posts
     * the callback once that returns normally.
     */
    method RunScheduledCompletion(args: Option<seq<string>>, build: BuildConfig, metaData: Option<MetaData>,
                                  defaultOldGenHeapSize: int, appInfoLookupOk: bool, nativeInitOk: bool)
      returns (callbackPosted: bool)
      requires Valid() && settings.Some?
      modifies this`initialized
      ensures Valid()
      ensures initResultFuture.None? || initResultFuture.value.InitTaskFailed? ==>
                !callbackPosted && initialized == old(initialized)
      ensures initResultFuture.Some? && initResultFuture.value.Completed? ==>
                (callbackPosted <==> old(initialized) || (appInfoLookupOk && nativeInitOk))
                && initialized == (old(initialized) || (appInfoLookupOk && nativeInitOk))
    {
      if initResultFuture.None? || initResultFuture.value.InitTaskFailed? {
        return false;
      }
      var status, _ := EnsureInitializationComplete(args, true, build, metaData, defaultOldGenHeapSize,
                                                    appInfoLookupOk, nativeInitOk);
      callbackPosted := status == Ok;
    }
  }
}
