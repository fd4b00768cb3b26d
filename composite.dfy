/** src/CompositeConfigurator.php: an ordered list of configurators that is
    loaded in order and whose compiler passes are collected in order. */
module Composite {
  import opened Wrappers

  /** A compiler pass, as an opaque token. */
  datatype CompilerPass = CompilerPass(token: nat)

  /** A configurator. `passes` is present exactly when the configurator is
      also a compiler-pass provider, and then lists the passes it exposes. */
  datatype Configurator = Configurator(name: string, passes: Option<seq<CompilerPass>>)

  /** The passes of the providers among cs, concatenated in order. */
  function ProviderPasses(cs: seq<Configurator>): seq<CompilerPass>
  {
    if cs == [] then []
    else
      var c := cs[|cs| - 1];
      ProviderPasses(cs[..|cs| - 1]) + (if c.passes.Some? then c.passes.value else [])
  }

  /** The number of passes the providers among cs expose. */
  function PassCount(cs: seq<Configurator>): nat
  {
    if cs == [] then 0
    else PassCount(cs[..|cs| - 1]) + (match cs[|cs| - 1].passes case Some(ps) => |ps| case None => 0)
  }

  /** Over pass lists, no pass is dropped or merged: the result is as long as
      all provided lists together. */
  lemma {:induction false} ProviderPassesLength(cs: seq<Configurator>)
    ensures |ProviderPasses(cs)| == PassCount(cs)
  {
    if cs != [] {
      ProviderPassesLength(cs[..|cs| - 1]);
    }
  }

  /** Collecting over two lists in turn is collecting over the first, then the second. */
  lemma {:induction false} ProviderPassesAppend(cs: seq<Configurator>, ds: seq<Configurator>)
    ensures ProviderPasses(cs + ds) == ProviderPasses(cs) + ProviderPasses(ds)
  {
    if ds == [] {
      assert cs + ds == cs;
    } else {
      var n := |ds| - 1;
      assert (cs + ds)[..|cs + ds| - 1] == cs + ds[..n];
      ProviderPassesAppend(cs, ds[..n]);
    }
  }

  /** A pass is collected exactly when some provider among cs exposes it. */
  lemma {:induction false} ProviderPassesMembers(cs: seq<Configurator>, p: CompilerPass)
    ensures p in ProviderPasses(cs) <==> exists c <- cs :: c.passes.Some? && p in c.passes.value
  {
    if cs != [] {
      var n := |cs| - 1;
      ProviderPassesMembers(cs[..n], p);
      if exists c <- cs :: c.passes.Some? && p in c.passes.value {
        var c :| c in cs && c.passes.Some? && p in c.passes.value;
        if c != cs[n] {
          assert c in cs[..n];
        }
      }
    }
  }

  /** The container builder, as far as configurators are concerned: the
      configurators applied to it, in order. This is a trace rather than
      Container.ContainerBuilder because the composite never reads or writes
      definitions itself; it only hands the container to each configurator,
      and what a configurator then does to it is outside this model. */
  class ConfiguredContainer {
    var loaded: seq<Configurator>

    constructor ()
      ensures loaded == []
    {
      loaded := [];
    }
  }

  /** `ConfiguratorLoader::load`: the configurator is recorded on the
      container and applied to it. */
  method LoadConfigurator(container: ConfiguredContainer, c: Configurator)
    modifies container
    ensures container.loaded == old(container.loaded) + [c]
  {
    container.loaded := container.loaded + [c];
  }

  class CompositeConfigurator {
    var configurators: seq<Configurator>

    constructor (configurators: seq<Configurator> := [])
      ensures this.configurators == configurators
    {
      this.configurators := [];
      new;
      var i := 0;
      while i < |configurators|
        invariant 0 <= i <= |configurators|
        invariant this.configurators == configurators[..i]
      {
        RegisterConfigurator(configurators[i]);
        assert configurators[..i + 1] == configurators[..i] + [configurators[i]];
        i := i + 1;
      }
      assert configurators[..i] == configurators;
    }

    method RegisterConfigurator(c: Configurator)
      modifies this`configurators
      ensures configurators == old(configurators) + [c]
    {
      configurators := configurators + [c];
    }

    /** Applies every configurator once, in registration order. */
    method Load(container: ConfiguredContainer)
      modifies container
      ensures container.loaded == old(container.loaded) + configurators
    {
      var i := 0;
      while i < |configurators|
        invariant 0 <= i <= |configurators|
        invariant container.loaded == old(container.loaded) + configurators[..i]
      {
        LoadConfigurator(container, configurators[i]);
        assert configurators[..i + 1] == configurators[..i] + [configurators[i]];
        i := i + 1;
      }
      assert configurators[..i] == configurators;
    }

    /** The passes of the configurators that are pass providers, concatenated
        in registration order. */
    method GetCompilerPasses() returns (passes: seq<CompilerPass>)
      ensures passes == ProviderPasses(configurators)
    {
      passes := [];
      var i := 0;
      while i < |configurators|
        invariant 0 <= i <= |configurators|
        invariant passes == ProviderPasses(configurators[..i])
      {
        var c := configurators[i];
        if c.passes.Some? {
          passes := passes + c.passes.value;
        }
        assert configurators[..i + 1][..i] == configurators[..i];
        i := i + 1;
      }
      assert configurators[..i] == configurators;
    }
  }
}
