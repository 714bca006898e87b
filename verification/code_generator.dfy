/** The orchestrator (CodeGenerator.java): a configuration and an ordered list of templates.
    `generate` parses the entity once, overwrites the configured base package with the one the
    entity's package implies, then runs every enabled template in registration order; a template
    that fails is logged and the run goes on with the next one. The mutable configuration and the
    log are modelled by returning the updated generator and one outcome per template run. Writing
    a file is modelled by a set of paths that cannot be written. */
module CodeGenerator {
  import opened Wrappers
  import opened JavaSource
  import opened JavaPoet
  import opened CodeGenConfig
  import opened EntityMetadata
  import opened CodeTemplate
  import EntityParser
  import CodeGenConfigLoader

  datatype Generator = Generator(config: Config, templates: seq<CodeTemplate>)

  /** `initializeTemplates`: the templates every generator starts with. */
  const InitialTemplates: seq<CodeTemplate> := [Dto, Mapper, Service]

  /** `new CodeGenerator(config)`. */
  function New(c: Config): (g: Generator)
    ensures g.config == c
    ensures |g.templates| == 3 && Name(g.templates[0]) == "dto" && Name(g.templates[1]) == "mapper"
      && Name(g.templates[2]) == "service"
  {
    Generator(c, InitialTemplates)
  }

  /** `new CodeGenerator()`: the builder defaults with base package `com.example.demo.model`,
      which is the configuration the loader falls back to. */
  function NewDefault(): (g: Generator)
    ensures g.config == CodeGenConfigLoader.CreateDefaultConfig()
    ensures g.config.basePackage == Some("com.example.demo.model")
    ensures g.templates == InitialTemplates
  {
    New(BuildWithBasePackage("com.example.demo.model"))
  }

  /** `fromConfigFile(resource)`: a missing or unreadable resource gives the default generator. */
  function FromConfigFile(resource: CodeGenConfigLoader.Resource): (g: Generator)
    ensures !resource.Loaded? ==> g == NewDefault()
    ensures resource.Loaded? ==> g.config == CodeGenConfigLoader.BuildConfigFromProperties(resource.properties)
    ensures g.templates == InitialTemplates
  {
    New(CodeGenConfigLoader.LoadFromClasspath(resource))
  }

  /** `addTemplate`: the template goes last; the earlier ones keep their order. */
  function AddTemplate(g: Generator, t: CodeTemplate): (h: Generator)
    ensures h.config == g.config
    ensures |h.templates| == |g.templates| + 1
    ensures h.templates[..|g.templates|] == g.templates && h.templates[|g.templates|] == t
  {
    g.(templates := g.templates + [t])
  }

  /** Why a template's `generate` did not complete. */
  datatype Failure = WriteFailed(path: string) | Threw(message: string)

  /** The log line of one template run: its name, the files it wrote before it completed or
      failed, and the failure, if any. */
  datatype Outcome = Outcome(template: string, written: seq<string>, failure: Option<Failure>)

  function Paths(dir: string, files: seq<JavaFile>): (ps: seq<string>)
    ensures |ps| == |files|
    ensures forall i | 0 <= i < |files| :: ps[i] == OutputPath(dir, files[i])
  {
    seq(|files|, i requires 0 <= i < |files| => OutputPath(dir, files[i]))
  }

  /** `writeTo` on each path in order: the first path that cannot be written throws, and the
      paths after it are not written. */
  function WritePaths(ps: seq<string>, unwritable: set<string>): (r: (seq<string>, Option<Failure>))
    ensures |r.0| <= |ps| && r.0 == ps[..|r.0|]
    ensures forall i | 0 <= i < |r.0| :: r.0[i] !in unwritable
    ensures r.1.None? <==> |r.0| == |ps|
    ensures r.1.Some? ==> ps[|r.0|] in unwritable && r.1 == Some(WriteFailed(ps[|r.0|]))
  {
    if ps == [] then ([], None)
    else if ps[0] in unwritable then ([], Some(WriteFailed(ps[0])))
    else
      var rest := WritePaths(ps[1..], unwritable);
      ([ps[0]] + rest.0, rest.1)
  }

  /** `writeTo(dir)` on each file in order. */
  function WriteFiles(dir: string, files: seq<JavaFile>, unwritable: set<string>): (r: (seq<string>, Option<Failure>))
    ensures |r.0| <= |files| && r.0 == Paths(dir, files)[..|r.0|]
    ensures r.1.None? <==> |r.0| == |files|
    ensures r.1.Some? ==> OutputPath(dir, files[|r.0|]) in unwritable
  {
    WritePaths(Paths(dir, files), unwritable)
  }

  /** One `template.generate(metadata, config)` inside its own `try`: an exception thrown before
      writing, or a path that cannot be written, becomes the outcome's failure. */
  function RunTemplate(t: CodeTemplate, md: Metadata, c: Config, unwritable: set<string>): (o: Outcome)
    ensures o.template == Name(t)
    ensures Files(t, md, c).Failure? ==> o == Outcome(Name(t), [], Some(Threw(Files(t, md, c).error)))
    ensures Files(t, md, c).Success? ==> |o.written| <= |Files(t, md, c).value|
    ensures Files(t, md, c).Success? ==> o.written == Paths(c.outputDir, Files(t, md, c).value)[..|o.written|]
    ensures Files(t, md, c).Success? ==> (o.failure.None? <==> |o.written| == |Files(t, md, c).value|)
  {
    match Files(t, md, c)
    case Failure(message) => Outcome(Name(t), [], Some(Threw(message)))
    case Success(files) =>
      var w := WriteFiles(c.outputDir, files, unwritable);
      Outcome(Name(t), w.0, w.1)
  }

  /** The registered templates whose name the configuration enables, in registration order. */
  function EnabledTemplates(c: Config, ts: seq<CodeTemplate>): (es: seq<CodeTemplate>)
    ensures |es| <= |ts|
    ensures forall i | 0 <= i < |es| :: es[i] in ts && IsTemplateEnabled(c, Name(es[i]))
    ensures forall i | 0 <= i < |ts| :: IsTemplateEnabled(c, Name(ts[i])) ==> ts[i] in es
  {
    if ts == [] then []
    else
      var rest := EnabledTemplates(c, ts[1..]);
      assert forall t | t in ts[1..] :: t in ts;
      if IsTemplateEnabled(c, Name(ts[0])) then [ts[0]] + rest else rest
  }

  /** Each template of `es` run on its own, in order. */
  function RunEach(es: seq<CodeTemplate>, md: Metadata, c: Config, unwritable: set<string>): (os: seq<Outcome>)
    ensures |os| == |es|
    ensures forall i | 0 <= i < |es| :: os[i] == RunTemplate(es[i], md, c, unwritable)
  {
    seq(|es|, i requires 0 <= i < |es| => RunTemplate(es[i], md, c, unwritable))
  }

  /** What the orchestration loop logs: one outcome per enabled template, in registration order;
      disabled ones leave no trace in the log. */
  function RunAll(ts: seq<CodeTemplate>, md: Metadata, c: Config, unwritable: set<string>): (os: seq<Outcome>)
    ensures |os| == |EnabledTemplates(c, ts)|
  {
    RunEach(EnabledTemplates(c, ts), md, c, unwritable)
  }

  /** The orchestration loop of `generate`: every registered template in turn, skipped when its
      name is not enabled, otherwise run inside its own `try`. */
  method RunTemplates(ts: seq<CodeTemplate>, md: Metadata, c: Config, unwritable: set<string>) returns (os: seq<Outcome>)
    ensures os == RunAll(ts, md, c, unwritable)
  {
    os := [];
    for i := 0 to |ts|
      invariant os == RunAll(ts[..i], md, c, unwritable)
    {
      assert ts[..i + 1] == ts[..i] + [ts[i]];
      RunAllAppendOne(ts[..i], ts[i], md, c, unwritable);
      if IsTemplateEnabled(c, Name(ts[i])) {
        os := os + [RunTemplate(ts[i], md, c, unwritable)];
      }
    }
    assert ts[..|ts|] == ts;
  }

  /** A completed `generate`: the generator with its updated configuration, the parsed metadata,
      and the log of template runs. */
  datatype Run = Run(generator: Generator, metadata: Metadata, outcomes: seq<Outcome>)

  /** `generate(entityClass)`. A parse failure propagates before anything else happens: no
      template runs and the configuration is left as it was. */
  function Generate(g: Generator, entity: EntityRef, sources: EntityParser.SourceTree, unwritable: set<string>)
    : (r: Result<Run, EntityParser.ParseError>)
    ensures r.Success? <==> EntityParser.Parse(g.config, entity, sources).Success?
    ensures r.Failure? ==> r.error == EntityParser.Parse(g.config, entity, sources).error
    ensures r.Success? ==>
      var md := EntityParser.Parse(g.config, entity, sources).value;
      var c := g.config.(basePackage := Some(md.basePackage));
      && r.value.metadata == md
      && r.value.generator == Generator(c, g.templates)
      && |r.value.outcomes| == |EnabledTemplates(c, g.templates)|
      && forall i | 0 <= i < |r.value.outcomes| ::
           r.value.outcomes[i] == RunTemplate(EnabledTemplates(c, g.templates)[i], md, c, unwritable)
  {
    match EntityParser.Parse(g.config, entity, sources)
    case Failure(e) => Failure(e)
    case Success(md) =>
      var c := g.config.(basePackage := Some(md.basePackage));
      Success(Run(Generator(c, g.templates), md, RunAll(g.templates, md, c, unwritable)))
  }

  /** The static `generate(entityClass)`: a fresh default generator. */
  function GenerateWithDefaults(entity: EntityRef, sources: EntityParser.SourceTree, unwritable: set<string>)
    : (r: Result<Run, EntityParser.ParseError>)
    ensures r.Success? ==> r.value.generator.config.basePackage == Some(r.value.metadata.basePackage)
    ensures r.Success? ==> r.value.generator.templates == InitialTemplates
    ensures r.Success? <==> EntityParser.Parse(CodeGenConfigLoader.CreateDefaultConfig(), entity, sources).Success?
  {
    Generate(NewDefault(), entity, sources, unwritable)
  }

  /** Filtering two lists of templates one after the other keeps the first list's enabled
      templates, then the second's. */
  lemma {:induction false} EnabledTemplatesAppend(c: Config, ts1: seq<CodeTemplate>, ts2: seq<CodeTemplate>)
    ensures EnabledTemplates(c, ts1 + ts2) == EnabledTemplates(c, ts1) + EnabledTemplates(c, ts2)
  {
    if ts1 == [] {
      assert ts1 + ts2 == ts2;
    } else {
      assert (ts1 + ts2)[1..] == ts1[1..] + ts2;
      EnabledTemplatesAppend(c, ts1[1..], ts2);
    }
  }

  lemma RunEachAppend(es1: seq<CodeTemplate>, es2: seq<CodeTemplate>, md: Metadata, c: Config, unwritable: set<string>)
    ensures RunEach(es1 + es2, md, c, unwritable) == RunEach(es1, md, c, unwritable) + RunEach(es2, md, c, unwritable)
  {
    var joined := RunEach(es1 + es2, md, c, unwritable);
    var parts := RunEach(es1, md, c, unwritable) + RunEach(es2, md, c, unwritable);
    forall i | 0 <= i < |joined|
      ensures joined[i] == parts[i]
    {
      if i < |es1| {
        assert (es1 + es2)[i] == es1[i];
      } else {
        assert (es1 + es2)[i] == es2[i - |es1|];
      }
    }
  }

  /** Running two lists of templates one after the other logs the first list's outcomes, then
      the second's: a template's failure has no effect on any other template's outcome. */
  lemma RunAllAppend(ts1: seq<CodeTemplate>, ts2: seq<CodeTemplate>, md: Metadata, c: Config, unwritable: set<string>)
    ensures RunAll(ts1 + ts2, md, c, unwritable) == RunAll(ts1, md, c, unwritable) + RunAll(ts2, md, c, unwritable)
  {
    EnabledTemplatesAppend(c, ts1, ts2);
    RunEachAppend(EnabledTemplates(c, ts1), EnabledTemplates(c, ts2), md, c, unwritable);
  }

  /** A registered template adds at most its own outcome, at the end of the log, and only when its
      name is enabled; every earlier outcome is unchanged. */
  lemma AddTemplateAppendsOutcome(g: Generator, t: CodeTemplate, entity: EntityRef, sources: EntityParser.SourceTree,
                                  unwritable: set<string>)
    ensures Generate(AddTemplate(g, t), entity, sources, unwritable).Success? <==> Generate(g, entity, sources, unwritable).Success?
    ensures Generate(g, entity, sources, unwritable).Success? ==>
      var before := Generate(g, entity, sources, unwritable).value;
      var after := Generate(AddTemplate(g, t), entity, sources, unwritable).value;
      after.outcomes == before.outcomes
        + (if IsTemplateEnabled(g.config, Name(t)) then [RunTemplate(t, before.metadata, before.generator.config, unwritable)] else [])
  {
    if Generate(g, entity, sources, unwritable).Success? {
      var md := EntityParser.Parse(g.config, entity, sources).value;
      RunAllAppendOne(g.templates, t, md, g.config.(basePackage := Some(md.basePackage)), unwritable);
    }
  }

  lemma RunAllAppendOne(ts: seq<CodeTemplate>, t: CodeTemplate, md: Metadata, c: Config, unwritable: set<string>)
    ensures RunAll(ts + [t], md, c, unwritable)
      == RunAll(ts, md, c, unwritable) + (if IsTemplateEnabled(c, Name(t)) then [RunTemplate(t, md, c, unwritable)] else [])
  {
    RunAllAppend(ts, [t], md, c, unwritable);
    assert [t][1..] == [];
    assert EnabledTemplates(c, [t]) == if IsTemplateEnabled(c, Name(t)) then [t] else [];
  }

  /** Generating again with the generator a run leaves behind reproduces the same run: the base
      package written back is the one the parse derives again. */
  lemma RerunIsIdempotent(g: Generator, entity: EntityRef, sources: EntityParser.SourceTree, unwritable: set<string>)
    ensures Generate(g, entity, sources, unwritable).Success? ==>
      var run := Generate(g, entity, sources, unwritable).value;
      Generate(run.generator, entity, sources, unwritable) == Success(run)
  {
    if Generate(g, entity, sources, unwritable).Success? {
      var run := Generate(g, entity, sources, unwritable).value;
      assert run.generator.config.outputDir == g.config.outputDir;
      assert run.generator.config.entityPackageSuffix == g.config.entityPackageSuffix;
      assert EntityParser.Parse(run.generator.config, entity, sources) == EntityParser.Parse(g.config, entity, sources);
    }
  }

  /** Under the built-in flag map the three initial templates are all enabled. */
  lemma InitialTemplatesEnabled(c: Config)
    requires c.templateEnabled == DefaultTemplateEnabled
    ensures EnabledTemplates(c, InitialTemplates) == InitialTemplates
  {
    assert IsTemplateEnabled(c, "dto") && IsTemplateEnabled(c, "mapper") && IsTemplateEnabled(c, "service");
    assert EnabledTemplates(c, [Service]) == [Service] by {
      assert [Service][1..] == [];
    }
    assert EnabledTemplates(c, [Mapper, Service]) == [Mapper, Service] by {
      assert [Mapper, Service][1..] == [Service];
    }
    assert InitialTemplates[1..] == [Mapper, Service];
  }

  /** Under the built-in flag map a successful run logs the dto, mapper and service templates,
      in that order. */
  lemma DefaultRunOrder(c: Config, entity: EntityRef, sources: EntityParser.SourceTree, unwritable: set<string>)
    requires c.templateEnabled == DefaultTemplateEnabled
    ensures Generate(New(c), entity, sources, unwritable).Success? ==>
      var os := Generate(New(c), entity, sources, unwritable).value.outcomes;
      |os| == 3 && os[0].template == "dto" && os[1].template == "mapper" && os[2].template == "service"
  {
    if Generate(New(c), entity, sources, unwritable).Success? {
      var md := EntityParser.Parse(c, entity, sources).value;
      InitialTemplatesEnabled(c.(basePackage := Some(md.basePackage)));
    }
  }

  /** A registered template whose name is not enabled leaves the log as it was. */
  lemma DisabledTemplateAddsNothing(g: Generator, t: CodeTemplate, entity: EntityRef, sources: EntityParser.SourceTree,
                                    unwritable: set<string>)
    requires !IsTemplateEnabled(g.config, Name(t))
    ensures Generate(g, entity, sources, unwritable).Success? ==>
      && Generate(AddTemplate(g, t), entity, sources, unwritable).Success?
      && Generate(AddTemplate(g, t), entity, sources, unwritable).value.outcomes
         == Generate(g, entity, sources, unwritable).value.outcomes
  {
    AddTemplateAppendsOutcome(g, t, entity, sources, unwritable);
  }

  /** A controller registered with `addTemplate` never runs under the built-in flag map, which
      has no `controller` entry. */
  lemma AddedControllerSkippedByDefault(g: Generator, entity: EntityRef, sources: EntityParser.SourceTree,
                                        unwritable: set<string>)
    requires g.config.templateEnabled == DefaultTemplateEnabled
    ensures Generate(g, entity, sources, unwritable).Success? ==>
      && Generate(AddTemplate(g, Controller), entity, sources, unwritable).Success?
      && Generate(AddTemplate(g, Controller), entity, sources, unwritable).value.outcomes
         == Generate(g, entity, sources, unwritable).value.outcomes
  {
    assert !IsTemplateEnabled(g.config, Name(Controller)) by {
      UnlistedTemplates();
    }
    DisabledTemplateAddsNothing(g, Controller, entity, sources, unwritable);
  }
}
