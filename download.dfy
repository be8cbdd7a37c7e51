/**
 * `writing()` (generators/app/index.js:197-307): from the answers and the
 * host platform, which Spring Initializr endpoint is requested with which
 * query, where the response goes, and what happens once it is written.
 * The HTTP request, the streams, the 500 ms delay and the build subprocess
 * are not performed here; the functions only say which of them is chosen.
 */
module Download {
  import opened Js

  /** Where a response body is written: a file, or an archive-extracting
      stream into a directory. */
  datatype Sink = FileSink(path: string) | ExtractSink(dir: string)

  /** What `postDownload` does once the body is written: say goodbye, or run
      the build wrapper through a shell and then say goodbye. */
  datatype PostDownload = Farewell | RunBuild(shell: string, args: seq<string>)

  /** One HTTP GET, its query options, its sink and its continuation. */
  datatype Request = Request(uri: string, query: Object, target: Sink, after: PostDownload)

  /** The sinks a run opens, in the order it opens them, and its request. */
  datatype Plan = Plan(sinks: seq<Sink>, request: Option<Request>)

  const GradleBuildUri := "https://start.spring.io/build.gradle?type=gradle-build"
  const GradleProjectUri := "https://start.spring.io/starter.zip?type=gradle-project"
  const MavenBuildUri := "https://start.spring.io/pom.xml?type=maven-build"
  const MavenProjectUri := "https://start.spring.io/starter.zip?type=maven-project"

  /** `props.toolchain === t` */
  predicate ToolchainIs(props: Object, t: string)
  {
    Get(props, "toolchain") == Str(t)
  }

  /** `props.format === f` */
  predicate FormatIs(props: Object, f: string)
  {
    Get(props, "format") == Str(f)
  }

  /** Lines 198-201: a copy of the answers with `format`, `toolchain` and
      `extract` set to `null`, sent as the query string. */
  function QueryOptions(props: Object): (q: Object)
    ensures q.Keys == props.Keys + {"format", "toolchain", "extract"}
    ensures q["format"] == Null && q["toolchain"] == Null && q["extract"] == Null
    ensures forall k :: k in props && k !in {"format", "toolchain", "extract"} ==> q[k] == props[k]
  {
    props["format" := Null]["toolchain" := Null]["extract" := Null]
  }

  /** Line 223: the extracting stream when `extract` is truthy, else the file
      `<name>.zip`. */
  function Out(props: Object): (s: Sink)
    ensures s.ExtractSink? <==> Truthy(Get(props, "extract"))
    ensures s.FileSink? ==> s.path == ToText(Get(props, "name")) + ".zip"
  {
    if Truthy(Get(props, "extract")) then ExtractSink(".")
    else FileSink(ToText(Get(props, "name")) + ".zip")
  }

  /** Lines 203-221: `postDownload(build)`. The build runs only for an
      extracted project: `sh` (or `cmd` on win32) runs the toolchain's
      wrapper with `build` for Gradle and `package` otherwise. */
  function AfterDownload(props: Object, platform: string, build: bool): (a: PostDownload)
    ensures a.RunBuild? <==> Truthy(Get(props, "extract")) && build
    ensures a.RunBuild? ==> a.shell == (if platform == "win32" then "cmd" else "sh")
    ensures a.RunBuild? ==> a.args == [(if ToolchainIs(props, "gradle") then "./gradlew" else "./mvnw")
                                       + (if platform == "win32" then ".bat" else ""),
                                       if ToolchainIs(props, "gradle") then "build" else "package"]
  {
    if Truthy(Get(props, "extract")) && build then
      var shell := if platform == "win32" then "cmd" else "sh";
      var tool := if ToolchainIs(props, "gradle") then "gradle" else "mvn";
      var command := if ToolchainIs(props, "gradle") then "build" else "package";
      var extension := if platform == "win32" then ".bat" else "";
      assert "./" + "gradle" + "w" == "./gradlew" && "./" + "mvn" + "w" == "./mvnw";
      RunBuild(shell, ["./" + tool + "w" + extension, command])
    else Farewell
  }

  /** Lines 230-306: the four-way endpoint dispatch. */
  function Dispatch(props: Object, platform: string): (r: Option<Request>)
    ensures r.Some? <==> (ToolchainIs(props, "gradle") || ToolchainIs(props, "maven"))
                         && (FormatIs(props, "build") || FormatIs(props, "project"))
    ensures r.Some? ==> r.value.query == QueryOptions(props)
    ensures r.Some? && r.value.target.ExtractSink? ==> FormatIs(props, "project") && Truthy(Get(props, "extract"))
    ensures r.Some? ==> (r.value.after.RunBuild? <==> FormatIs(props, "project") && Truthy(Get(props, "extract")))
  {
    var query := QueryOptions(props);
    if ToolchainIs(props, "gradle") && FormatIs(props, "build") then
      Some(Request(GradleBuildUri, query, FileSink("build.gradle"), AfterDownload(props, platform, false)))
    else if ToolchainIs(props, "gradle") && FormatIs(props, "project") then
      Some(Request(GradleProjectUri, query, Out(props), AfterDownload(props, platform, true)))
    else if ToolchainIs(props, "maven") && FormatIs(props, "build") then
      Some(Request(MavenBuildUri, query, FileSink("pom.xml"), AfterDownload(props, platform, false)))
    else if ToolchainIs(props, "maven") && FormatIs(props, "project") then
      Some(Request(MavenProjectUri, query, Out(props), AfterDownload(props, platform, true)))
    else None
  }

  /** The paths of the files the sinks create, in opening order. */
  function FilesCreated(sinks: seq<Sink>): seq<string>
  {
    if sinks == [] then []
    else FilesCreated(sinks[..|sinks| - 1])
         + (if sinks[|sinks| - 1].FileSink? then [sinks[|sinks| - 1].path] else [])
  }

  /** `writing()` as written: `out` is opened before the dispatch (line 223),
      whatever the branch; the build-descriptor branches then open their own
      file (lines 243, 281). */
  function WritingAsWritten(props: Object, platform: string): (p: Plan)
    ensures p.request == Dispatch(props, platform)
    ensures |p.sinks| >= 1 && p.sinks[0] == Out(props)
    ensures p.request.None? || FormatIs(props, "project") ==> p.sinks == [Out(props)]
    ensures p.request.Some? && FormatIs(props, "build") ==> p.sinks == [Out(props), p.request.value.target]
  {
    var r := Dispatch(props, platform);
    var own := if r.Some? && r.value.target != Out(props) then [r.value.target] else [];
    // `out` is never a descriptor file: its path, if any, ends in "p".
    assert Out(props).FileSink? ==> Out(props).path[|Out(props).path| - 1] == 'p';
    Plan([Out(props)] + own, r)
  }

  /** `writing()` with `out` opened only in the branches that pipe into it. */
  function Writing(props: Object, platform: string): (p: Plan)
    ensures p.request == Dispatch(props, platform)
    ensures p.request.None? ==> p.sinks == []
    ensures p.request.Some? ==> p.sinks == [p.request.value.target]
  {
    var r := Dispatch(props, platform);
    Plan(if r.Some? then [r.value.target] else [], r)
  }

  // ---------------------------------------------------------------------
  // The dispatch table

  /** `(gradle, build)` fetches `build.gradle` into `build.gradle`,
      `(maven, build)` fetches `pom.xml` into `pom.xml`; neither runs a build. */
  lemma DescriptorDownload(props: Object, platform: string)
    requires FormatIs(props, "build") && (ToolchainIs(props, "gradle") || ToolchainIs(props, "maven"))
    ensures Dispatch(props, platform) == Some(Request(
              if ToolchainIs(props, "gradle") then GradleBuildUri else MavenBuildUri,
              QueryOptions(props),
              FileSink(if ToolchainIs(props, "gradle") then "build.gradle" else "pom.xml"),
              Farewell))
  {
  }

  /** `(gradle|maven, project)` fetches `starter.zip?type=<tool>-project` into
      the extracting stream when `extract` is truthy, else into `<name>.zip`,
      and then calls `postDownload(true)`. */
  lemma ProjectDownload(props: Object, platform: string)
    requires FormatIs(props, "project") && (ToolchainIs(props, "gradle") || ToolchainIs(props, "maven"))
    ensures Dispatch(props, platform) == Some(Request(
              "https://start.spring.io/starter.zip?type=" + (if ToolchainIs(props, "gradle") then "gradle" else "maven") + "-project",
              QueryOptions(props),
              if Truthy(Get(props, "extract")) then ExtractSink(".") else FileSink(ToText(Get(props, "name")) + ".zip"),
              AfterDownload(props, platform, true)))
  {
    if ToolchainIs(props, "gradle") {
      assert GradleProjectUri == "https://start.spring.io/starter.zip?type=" + "gradle" + "-project";
    } else {
      assert MavenProjectUri == "https://start.spring.io/starter.zip?type=" + "maven" + "-project";
    }
  }

  /** Maven and build: exactly one file, `pom.xml`, and no extraction. */
  lemma MavenBuildWritesOnlyPom(props: Object, platform: string)
    requires ToolchainIs(props, "maven") && FormatIs(props, "build")
    ensures FilesCreated(Writing(props, platform).sinks) == ["pom.xml"]
    ensures forall s :: s in Writing(props, platform).sinks ==> !s.ExtractSink?
  {
  }

  /** Gradle, project and `extract`: the body goes to the extracting stream,
      no file sink (so no `.zip`) is opened, and the Gradle wrapper builds
      once; this holds of the run as written and of the corrected run. */
  lemma GradleExtractedProjectBuilds(props: Object)
    requires ToolchainIs(props, "gradle") && FormatIs(props, "project") && Get(props, "extract") == Bool(true)
    ensures WritingAsWritten(props, "linux").sinks == [ExtractSink(".")]
    ensures Writing(props, "linux").sinks == [ExtractSink(".")]
    ensures FilesCreated(WritingAsWritten(props, "linux").sinks) == []
    ensures WritingAsWritten(props, "linux").request.value.target == ExtractSink(".")
    ensures WritingAsWritten(props, "linux").request.value.after == RunBuild("sh", ["./gradlew", "build"])
    ensures WritingAsWritten(props, "win32").request.value.after == RunBuild("cmd", ["./gradlew.bat", "build"])
  {
    var sinks := WritingAsWritten(props, "linux").sinks;
    assert sinks[..0] == [];
    assert "./" + "gradle" + "w" + "" == "./gradlew";
    assert "./" + "gradle" + "w" + ".bat" == "./gradlew.bat";
  }

  // ---------------------------------------------------------------------
  // The stray archive file

  lemma {:induction false} FilesCreatedAppend(a: seq<Sink>, b: seq<Sink>)
    ensures FilesCreated(a + b) == FilesCreated(a) + FilesCreated(b)
  {
    if b != [] {
      var n := |b| - 1;
      assert (a + b)[..|a + b| - 1] == a + b[..n];
      FilesCreatedAppend(a, b[..n]);
    } else {
      assert a + b == a;
    }
  }

  /** As written, a build-descriptor run without `extract` also opens (and so
      creates, empty) the file `<name>.zip` before the descriptor. */
  lemma AsWrittenOpensStrayZip(props: Object, platform: string)
    requires FormatIs(props, "build") && (ToolchainIs(props, "gradle") || ToolchainIs(props, "maven"))
    requires !Truthy(Get(props, "extract"))
    ensures FilesCreated(WritingAsWritten(props, platform).sinks)
            == [ToText(Get(props, "name")) + ".zip",
                if ToolchainIs(props, "gradle") then "build.gradle" else "pom.xml"]
  {
    var zip := FileSink(ToText(Get(props, "name")) + ".zip");
    var own := FileSink(if ToolchainIs(props, "gradle") then "build.gradle" else "pom.xml");
    assert zip != own by {
      var z := ToText(Get(props, "name")) + ".zip";
      assert z[|z| - 1] == 'p';
    }
    assert WritingAsWritten(props, platform).sinks == [zip] + [own];
    FilesCreatedAppend([zip], [own]);
    assert [zip][..0] == [];
    assert [own][..0] == [];
  }

  /** The concrete case: Maven, build descriptor, app `demo`. */
  lemma AsWrittenMavenBuildExample()
    ensures FilesCreated(WritingAsWritten(map["toolchain" := Str("maven"), "format" := Str("build"), "name" := Str("demo")], "linux").sinks)
            == ["demo.zip", "pom.xml"]
  {
    var props := map["toolchain" := Str("maven"), "format" := Str("build"), "name" := Str("demo")];
    AsWrittenOpensStrayZip(props, "linux");
    assert ToText(Get(props, "name")) + ".zip" == "demo.zip";
  }

  /** With `out` opened only where it is piped into, a run opens exactly its
      request's sink, so a build-descriptor run creates only its descriptor
      and a run that matches no endpoint creates nothing. */
  lemma WritingOpensOnlyItsTarget(props: Object, platform: string)
    ensures Writing(props, platform).request.None? ==> FilesCreated(Writing(props, platform).sinks) == []
    ensures FormatIs(props, "build") && (ToolchainIs(props, "gradle") || ToolchainIs(props, "maven")) ==>
              FilesCreated(Writing(props, platform).sinks)
              == [if ToolchainIs(props, "gradle") then "build.gradle" else "pom.xml"]
  {
  }
}
