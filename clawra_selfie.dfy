/**
 * The command-line entry point: argument positions, materialising the first
 * generated image (a URL as is, a base64 payload as a temporary file), and the run
 * itself, which hands the image to the messenger and removes the temporary file
 * afterwards whether the hand-off succeeded or failed.
 */
module ClawraSelfie {
  import opened Wrappers
  import opened Base
  import Js
  import OpenAI
  import Runware
  import Fal
  import opened Providers

  /** The positional arguments. */
  datatype Args = Args(prompt: string, platform: string, target: string, caption: Option<string>)

  /**
   * `parseArgs`: fewer than three arguments print the usage and exit (`None`);
   * otherwise prompt, platform, target and caption are the first four arguments in
   * that order, and the caption is `undefined` when there is no fourth. Anything
   * after the fourth is ignored.
   */
  function ParseArgs(argv: seq<string>): (r: Option<Args>)
    ensures r.None? <==> |argv| < 3
    ensures r.Some? ==> r.value.prompt == argv[0] && r.value.platform == argv[1] && r.value.target == argv[2]
    ensures r.Some? ==> r.value.caption == if |argv| > 3 then Some(argv[3]) else None
  {
    if |argv| < 3 then None
    else Some(Args(argv[0], argv[1], argv[2], if |argv| > 3 then Some(argv[3]) else None))
  }

  /** Extra arguments change nothing. */
  lemma ParseArgsIgnoresExtra(argv: seq<string>, extra: seq<string>)
    requires |argv| >= 4
    ensures ParseArgs(argv + extra) == ParseArgs(argv)
  {
  }

  /** Where the image is for the messenger, and whether it is a temporary file to remove. */
  datatype Media = Media(media: string, needsCleanup: bool)

  /**
   * The file extension for a media type: `(mimeType || "image/png").split("/")[1]`,
   * or `png` when that is missing or empty. Never empty, never holds a `/`.
   */
  function Extension(mimeType: Option<string>): (ext: string)
    ensures ext != [] && '/' !in ext
  {
    var m := Js.Or(mimeType, "image/png");
    var subtype := Js.SplitPart(m, '/', 1);
    Js.SplitPartsFree(m, '/');
    if Js.Truthy(subtype) then subtype.value else "png"
  }

  /** The extension is the subtype of a `type/subtype` media type (anything after a further `/` is cut). */
  lemma ExtensionIsSubtype(kind: string, subtype: string, tail: string)
    requires '/' !in kind && '/' !in subtype && subtype != ""
    requires tail == [] || tail[0] == '/'
    ensures Extension(Some(kind + "/" + subtype + tail)) == subtype
  {
    Js.SplitSecondPart(kind, subtype, tail, '/');
  }

  /** A media type without a subtype gives `png`. */
  lemma ExtensionWithoutSubtype(mimeType: string)
    requires '/' !in mimeType
    ensures Extension(Some(mimeType)) == "png"
  {
    if mimeType == "" {
      ExtensionPng();
    } else {
      Js.SplitSecondPartMissing(mimeType, '/');
    }
  }

  /** An empty subtype (`image/`, `image//x`) gives `png`. */
  lemma ExtensionEmptySubtype(kind: string, tail: string)
    requires '/' !in kind
    requires tail == [] || tail[0] == '/'
    ensures Extension(Some(kind + "/" + tail)) == "png"
  {
    Js.SplitSecondPart(kind, [], tail, '/');
    assert kind + "/" + tail == kind + ['/'] + [] + tail;
  }

  /** `image/png` is the type `image` with the subtype `png`. */
  lemma ImagePngParts()
    ensures "image" + "/" + "png" == "image/png"
  {
    var joined := "image" + "/" + "png";
    assert |joined| == 9;
    forall i | 0 <= i < 9 ensures joined[i] == "image/png"[i] {
      if i < 5 { assert joined[i] == "image"[i]; } else if i > 5 { assert joined[i] == "png"[i - 6]; }
    }
  }

  /** `image/jpeg` is the type `image` with the subtype `jpeg`. */
  lemma ImageJpegParts()
    ensures "image" + "/" + "jpeg" == "image/jpeg"
  {
    var joined := "image" + "/" + "jpeg";
    assert |joined| == 10;
    forall i | 0 <= i < 10 ensures joined[i] == "image/jpeg"[i] {
      if i < 5 { assert joined[i] == "image"[i]; } else if i > 5 { assert joined[i] == "jpeg"[i - 6]; }
    }
  }

  /** `image/png` gives `png`. */
  lemma ExtensionPng()
    ensures Extension(Some("image/png")) == "png"
  {
    ExtensionIsSubtype("image", "png", []);
    ImagePngParts();
    assert "image" + "/" + "png" + [] == "image" + "/" + "png";
  }

  /** `image/jpeg` gives `jpeg`. */
  lemma ExtensionJpeg()
    ensures Extension(Some("image/jpeg")) == "jpeg"
  {
    ExtensionIsSubtype("image", "jpeg", []);
    ImageJpegParts();
    assert "image" + "/" + "jpeg" + [] == "image" + "/" + "jpeg";
  }

  /** No media type, or the PNG one, gives `png`; `image/jpeg` gives `jpeg`; `image` gives `png`. */
  lemma ExtensionExamples()
    ensures Extension(None) == "png"
    ensures Extension(Some("image/png")) == "png"
    ensures Extension(Some("image/jpeg")) == "jpeg"
    ensures Extension(Some("image")) == "png"
  {
    ExtensionPng();
    ExtensionJpeg();
    ExtensionWithoutSubtype("image");
  }

  const TempPrefix := "/tmp/clawra-"

  /** `/tmp/clawra-${Date.now()}.${ext}`. */
  function TempPath(now: nat, ext: string): (path: string)
    ensures |path| == |TempPrefix| + |Js.NatToString(now)| + 1 + |ext|
    ensures TempPrefix <= path
    ensures path[|path| - |ext|..] == ext
  {
    TempPrefix + Js.NatToString(now) + "." + ext
  }

  /** Distinct timestamps, or distinct extensions, give distinct temporary paths. */
  lemma TempPathInjective(now: nat, ext: string, now': nat, ext': string)
    requires TempPath(now, ext) == TempPath(now', ext')
    ensures now == now' && ext == ext'
  {
    var d, d' := Js.NatToString(now), Js.NatToString(now');
    var p, p' := TempPath(now, ext), TempPath(now', ext');
    assert p == TempPrefix + (d + "." + ext);
    assert p' == TempPrefix + (d' + "." + ext');
    var s := p[|TempPrefix|..];
    assert s == d + "." + ext && s == d' + "." + ext';
    assert '.' !in d && '.' !in d';
    Js.SplitAtFirst(d, ext, '.');
    Js.SplitAtFirst(d', ext', '.');
    assert d == Js.Split(s, '.')[0] == d';
    assert ext == s[|d| + 1..] == ext';
    Js.NatToStringInjective(now, now');
  }

  /**
   * `handleOutput`, without the file write: a non-empty `url` is used as is (even
   * when a payload is present too) and needs no cleanup; otherwise a non-empty
   * `b64_json` goes to the temporary path for the output's extension, which needs
   * cleanup; otherwise it throws.
   */
  function Materialize(output: ProviderOutput, now: nat): (r: Result<Media, string>)
    ensures Js.Truthy(output.url) ==> r == Ok(Media(output.url.value, false))
    ensures !Js.Truthy(output.url) && Js.Truthy(output.b64Json) ==>
              r == Ok(Media(TempPath(now, Extension(output.mimeType)), true))
    ensures r.Err? <==> !HasImage(output)
    ensures r.Err? ==> r.error == "Provider returned neither url nor b64_json"
  {
    if Js.Truthy(output.url) then Ok(Media(output.url.value, false))
    else if Js.Truthy(output.b64Json) then
      Ok(Media(TempPath(now, Extension(output.mimeType)), true))
    else Err("Provider returned neither url nor b64_json")
  }

  /** A temporary file is always at a `/tmp/clawra-<digits>.<ext>` path. */
  lemma MaterializedTempPath(output: ProviderOutput, now: nat)
    requires Materialize(output, now).Ok? && Materialize(output, now).value.needsCleanup
    ensures var path := Materialize(output, now).value.media;
            && path == TempPrefix + Js.NatToString(now) + "." + Extension(output.mimeType)
            && !Js.Truthy(output.url) && Js.Truthy(output.b64Json)
  {
  }

  /** A PNG payload is written to a `.png` file. */
  lemma PngPayloadPath(payload: string, now: nat)
    requires payload != ""
    ensures Materialize(ProviderOutput(None, Some(payload), Some("image/png"), None), now) ==
              Ok(Media(TempPrefix + Js.NatToString(now) + "." + "png", true))
  {
    var output := ProviderOutput(None, Some(payload), Some("image/png"), None);
    ExtensionPng();
    assert Materialize(output, now) == Ok(Media(TempPath(now, "png"), true));
  }

  /** The temporary files, path to the (still base64) payload written there. */
  class FileSystem {
    var files: map<string, string>

    /** `fs.existsSync`. */
    function Exists(path: string): (present: bool)
      reads this
      ensures present <==> path in files
    {
      path in files
    }

    /** `fs.writeFileSync`: creates or overwrites one file. */
    method WriteFile(path: string, contents: string)
      modifies this
      ensures files == old(files)[path := contents]
    {
      files := files[path := contents];
    }

    /** `fs.unlinkSync` on an existing file. */
    method Unlink(path: string)
      requires path in files
      modifies this
      ensures files == old(files) - {path}
    {
      files := files - {path};
    }
  }

  /**
   * What `handleOutput` returns or throws when the file write fails with
   * `writeError` (`None` when it succeeds): the write happens only for a payload
   * without a URL, and its failure then replaces the temporary file.
   */
  function Handled(output: ProviderOutput, now: nat, writeError: Option<string>): (r: Result<Media, string>)
    ensures writeError.None? ==> r == Materialize(output, now)
    ensures !(Materialize(output, now).Ok? && Materialize(output, now).value.needsCleanup) ==>
              r == Materialize(output, now)
    ensures Materialize(output, now).Ok? && Materialize(output, now).value.needsCleanup && writeError.Some? ==>
              r == Err(writeError.value)
    ensures r.Ok? && r.value.needsCleanup ==> writeError.None?
  {
    var m := Materialize(output, now);
    if m.Ok? && m.value.needsCleanup && writeError.Some? then Err(writeError.value) else m
  }

  /**
   * `handleOutput`: `Materialize`, plus writing the payload when it needs a temporary
   * file. A failed write (`writeError`) leaves the files as they were.
   */
  method HandleOutput(fs: FileSystem, output: ProviderOutput, now: nat, writeError: Option<string>)
      returns (r: Result<Media, string>)
    modifies fs
    ensures r == Handled(output, now, writeError)
    ensures r.Ok? && r.value.needsCleanup ==> fs.files == old(fs.files)[r.value.media := output.b64Json.value]
    ensures !(r.Ok? && r.value.needsCleanup) ==> fs.files == old(fs.files)
  {
    if Js.Truthy(output.url) {
      return Ok(Media(output.url.value, false));
    }
    if Js.Truthy(output.b64Json) {
      var ext := Extension(output.mimeType);
      var tmpPath := TempPath(now, ext);
      if writeError.Some? {
        return Err(writeError.value);
      }
      fs.WriteFile(tmpPath, output.b64Json.value);
      return Ok(Media(tmpPath, true));
    }
    return Err("Provider returned neither url nor b64_json");
  }

  const DefaultCaption := "Generated with CLAWRA"

  /** `args.caption || "Generated with CLAWRA"`. */
  function Caption(args: Args): (caption: string)
    ensures Js.Truthy(args.caption) ==> caption == args.caption.value
    ensures !Js.Truthy(args.caption) ==> caption == DefaultCaption
    ensures caption != ""
  {
    Js.Or(args.caption, DefaultCaption)
  }

  const NotConfiguredText := " provider not configured. Missing: "

  /** The error `main` throws for a provider that is not configured. */
  function NotConfiguredMessage(p: Provider): (message: string)
    ensures p.Name() <= message
    ensures message[|p.Name()|..] == NotConfiguredText + Js.Join(p.ConfigRequirements(), ", ")
  {
    p.Name() + (NotConfiguredText + Js.Join(p.ConfigRequirements(), ", "))
  }

  /** How a run ends badly: the usage text (arguments missing) or a thrown error. */
  datatype Exit = Usage | Fatal(message: string)

  /** Everything `main` settles before the hand-off to the messenger. */
  datatype Prepared = Prepared(args: Args, provider: Provider, output: ProviderOutput, media: Media)

  /**
   * The steps of `main` up to the send: parse the arguments, pick the provider,
   * insist it is configured, generate, insist on an output and materialise the
   * first one only (where writing its file may fail with `writeError`). The first
   * step that fails decides the exit.
   */
  function Prepare(env: Env, argv: seq<string>, now: nat, network: Network, writeError: Option<string>):
    (r: Result<Prepared, Exit>)
    ensures (r == Err(Usage)) <==> |argv| < 3
    ensures |argv| >= 3 && GetProvider(env).Err? ==> r == Err(Fatal(GetProvider(env).error))
    ensures |argv| >= 3 && GetProvider(env).Ok? && !GetProvider(env).value.IsConfigured(env) ==>
              r == Err(Fatal(NotConfiguredMessage(GetProvider(env).value)))
    ensures |argv| >= 3 && GetProvider(env).Ok? && GetProvider(env).value.IsConfigured(env) ==>
              var outputs := GetProvider(env).value.Outcome(env, network);
              && (outputs.Err? ==> r == Err(Fatal(outputs.error)))
              && (outputs.Ok? && outputs.value == [] ==> r == Err(Fatal("Provider returned empty outputs")))
              && (outputs.Ok? && outputs.value != [] ==>
                    var handled := Handled(outputs.value[0], now, writeError);
                    && (r.Ok? <==> handled.Ok?)
                    && (handled.Err? ==> r == Err(Fatal(handled.error))))
    ensures r.Ok? ==> ParseArgs(argv) == Some(r.value.args)
    ensures r.Ok? ==> GetProvider(env) == Ok(r.value.provider) && r.value.provider.IsConfigured(env)
    ensures r.Ok? ==> r.value.provider != RunwareProvider
    ensures r.Ok? ==> var outputs := r.value.provider.Outcome(env, network);
              outputs.Ok? && outputs.value != [] && r.value.output == outputs.value[0]
    ensures r.Ok? ==> Materialize(r.value.output, now) == Ok(r.value.media)
    ensures r.Ok? && r.value.media.needsCleanup ==> writeError.None?
  {
    var parsed := ParseArgs(argv);
    if parsed.None? then Err(Usage)
    else
      var selected := GetProvider(env);
      if selected.Err? then Err(Fatal(selected.error))
      else
        var provider := selected.value;
        if !provider.IsConfigured(env) then Err(Fatal(NotConfiguredMessage(provider)))
        else
          var outputs := provider.Outcome(env, network);
          if outputs.Err? then Err(Fatal(outputs.error))
          else if outputs.value == [] then Err(Fatal("Provider returned empty outputs"))
          else
            var handled := Handled(outputs.value[0], now, writeError);
            if handled.Err? then Err(Fatal(handled.error))
            else Ok(Prepared(parsed.value, provider, outputs.value[0], handled.value))
  }

  /** With no override and neither the OpenAI nor the Fal key set, the run stops naming the OpenAI key. */
  lemma UnconfiguredNamesOpenAIKey(env: Env, argv: seq<string>, now: nat, network: Network,
                                   writeError: Option<string>)
    requires |argv| >= 3
    requires !Js.Truthy(Read(env, OverrideVar)) && !OpenAI.IsConfigured(env) && !Fal.IsConfigured(env)
    ensures Prepare(env, argv, now, network, writeError) ==
              Err(Fatal("openai" + " provider not configured. Missing: " + "OPENAI_API_KEY"))
  {
    NotConfiguredMessages();
  }

  /** The error names the provider and its one required variable. */
  lemma NotConfiguredMessages()
    ensures NotConfiguredMessage(OpenAIProvider) ==
              "openai" + " provider not configured. Missing: " + "OPENAI_API_KEY"
    ensures NotConfiguredMessage(FalProvider) ==
              "fal" + " provider not configured. Missing: " + "FAL_KEY"
    ensures NotConfiguredMessage(RunwareProvider) ==
              "runware" + " provider not configured. Missing: " + "RUNWARE_API_KEY"
  {
    assert Js.Join(OpenAIProvider.ConfigRequirements(), ", ") == "OPENAI_API_KEY";
    assert Js.Join(FalProvider.ConfigRequirements(), ", ") == "FAL_KEY";
    assert Js.Join(RunwareProvider.ConfigRequirements(), ", ") == "RUNWARE_API_KEY";
  }

  /** An image from Fal is always a URL, so a Fal run never creates a temporary file. */
  lemma FalRunNeedsNoCleanup(env: Env, argv: seq<string>, now: nat, network: Network, writeError: Option<string>)
    requires Prepare(env, argv, now, network, writeError).Ok?
    requires Prepare(env, argv, now, network, writeError).value.provider == FalProvider
    ensures !Prepare(env, argv, now, network, writeError).value.media.needsCleanup
  {
  }

  /** What is handed to the messenger. */
  datatype SendRequest = SendRequest(platform: string, target: string, message: string, media: string)

  /**
   * How a run ended: what was sent, if anything, the files as the messenger found
   * them, and the failure, if any.
   */
  datatype Report = Report(sent: Option<SendRequest>, filesAtSend: Option<map<string, string>>, exit: Option<Exit>)

  /** The messenger's outcome as the exit of a run. */
  function SendExit(sendError: Option<string>): (exit: Option<Exit>)
    ensures exit.None? <==> sendError.None?
    ensures sendError.Some? ==> exit == Some(Fatal(sendError.value))
  {
    if sendError.None? then None else Some(Fatal(sendError.value))
  }

  /**
   * The `try`/`finally` of `main`: send, then remove a temporary file that still
   * exists. A failed removal keeps the file and its error wins over the send's.
   */
  method Deliver(fs: FileSystem, sent: SendRequest, media: Media, sendError: Option<string>,
                 unlinkError: Option<string>) returns (report: Report)
    modifies fs
    ensures report.sent == Some(sent) && report.filesAtSend == Some(old(fs.files))
    ensures media.needsCleanup && media.media in old(fs.files) && unlinkError.None? ==>
              fs.files == old(fs.files) - {media.media} && report.exit == SendExit(sendError)
    ensures media.needsCleanup && media.media in old(fs.files) && unlinkError.Some? ==>
              fs.files == old(fs.files) && report.exit == Some(Fatal(unlinkError.value))
    ensures !(media.needsCleanup && media.media in old(fs.files)) ==>
              fs.files == old(fs.files) && report.exit == SendExit(sendError)
  {
    var filesAtSend := fs.files;
    var exit := SendExit(sendError);
    if media.needsCleanup && fs.Exists(media.media) {
      if unlinkError.Some? {
        exit := Some(Fatal(unlinkError.value));
      } else {
        fs.Unlink(media.media);
      }
    }
    report := Report(Some(sent), Some(filesAtSend), exit);
  }

  /**
   * `main`. The outcomes of the file write, the messenger and the file removal are
   * `writeError`, `sendError` and `unlinkError` (`None` for success). A temporary
   * file holds the payload while it is sent and is removed afterwards whether the
   * send succeeded or failed, and only a temporary file is; a failed removal keeps
   * the file and its error replaces the send's outcome. When a step before the send
   * fails, no file is touched.
   */
  method Run(fs: FileSystem, env: Env, argv: seq<string>, now: nat, network: Network,
             writeError: Option<string>, sendError: Option<string>, unlinkError: Option<string>)
      returns (report: Report)
    modifies fs
    ensures var p := Prepare(env, argv, now, network, writeError);
            && (p.Err? ==> report == Report(None, None, Some(p.error)) && fs.files == old(fs.files))
            && (p.Ok? ==> report.sent == Some(SendRequest(p.value.args.platform, p.value.args.target,
                                                           Caption(p.value.args), p.value.media.media)))
            && (p.Ok? && p.value.media.needsCleanup ==>
                  report.filesAtSend == Some(old(fs.files)[p.value.media.media := p.value.output.b64Json.value]))
            && (p.Ok? && !p.value.media.needsCleanup ==> report.filesAtSend == Some(old(fs.files)))
            && (p.Ok? && p.value.media.needsCleanup && unlinkError.None? ==>
                  fs.files == old(fs.files) - {p.value.media.media})
            && (p.Ok? && p.value.media.needsCleanup && unlinkError.Some? ==>
                  fs.files == report.filesAtSend.value && report.exit == Some(Fatal(unlinkError.value)))
            && (p.Ok? && !(p.value.media.needsCleanup && unlinkError.Some?) ==>
                  report.exit == SendExit(sendError))
            && (p.Ok? && !p.value.media.needsCleanup ==> fs.files == old(fs.files))
  {
    ghost var prepared := Prepare(env, argv, now, network, writeError);
    var parsed := ParseArgs(argv);
    if parsed.None? {
      assert prepared == Err(Usage);
      return Report(None, None, Some(Usage));
    }
    var args := parsed.value;
    var selected := GetProvider(env);
    if selected.Err? {
      assert prepared == Err(Fatal(selected.error));
      return Report(None, None, Some(Fatal(selected.error)));
    }
    var provider := selected.value;
    if !provider.IsConfigured(env) {
      assert prepared == Err(Fatal(NotConfiguredMessage(provider)));
      return Report(None, None, Some(Fatal(NotConfiguredMessage(provider))));
    }
    var input := ProviderInput(args.prompt, None, None, None);
    var outputs: Result<seq<ProviderOutput>, string>;
    match provider {
      case OpenAIProvider =>
        var request;
        request, outputs := OpenAI.Generate(env, input, network.openai);
      case RunwareProvider =>
        outputs := Runware.Outcome(env, network.runware);
      case FalProvider =>
        outputs := Fal.Outcome(env, network.fal);
    }
    assert outputs == provider.Outcome(env, network);
    if outputs.Err? {
      assert prepared == Err(Fatal(outputs.error));
      return Report(None, None, Some(Fatal(outputs.error)));
    }
    if outputs.value == [] {
      return Report(None, None, Some(Fatal("Provider returned empty outputs")));
    }
    var firstOutput := outputs.value[0];
    var handled := HandleOutput(fs, firstOutput, now, writeError);
    if handled.Err? {
      assert prepared == Err(Fatal(handled.error));
      return Report(None, None, Some(Fatal(handled.error)));
    }
    var media := handled.value;
    assert prepared == Ok(Prepared(args, provider, firstOutput, media));
    var caption := Caption(args);
    var sent := SendRequest(args.platform, args.target, caption, media.media);
    report := Deliver(fs, sent, media, sendError, unlinkError);
  }
}
