/**
 * The process-wide renderer registry: the Renderer class's two statics (the
 * instance pointer and the initialized flag), the constructor that runs Init
 * and registers the first renderer it completes, and the GetInstance()
 * accessor.
 *
 * A C++ exception thrown by Init leaves the constructor, so the object is
 * never handed to anyone; the model returns Err and registers nothing.
 */
module Lifecycle {
  import opened VkTypes
  import opened DeviceSelection
  import opened Rendering

  /** What GetInstance() hands back: the registered renderer, or null with one of its two messages. */
  datatype Lookup = Found(renderer: Renderer) | NoInstance | NotInitialized

  class Registry {
    /** Renderer::rendererInstance: the first renderer whose construction completed. */
    var rendererInstance: Renderer?
    /** Renderer::isInitialized: set by the last step of Init, in whichever renderer runs it. */
    var isInitialized: bool

    /** Only a renderer whose Init has completed is ever registered. */
    ghost predicate Valid()
      reads this
    {
      rendererInstance != null ==> isInitialized
    }

    /** Program start: the instance pointer is null and the flag false. */
    constructor ()
      ensures rendererInstance == null && !isInitialized
      ensures Valid()
    {
      rendererInstance := null;
      isInitialized := false;
    }

    /**
     * GetInstance(): the registered renderer once Init has completed, null
     * otherwise. While the registry is valid the "call Init first" answer
     * cannot occur, since registration follows a completed Init.
     */
    function GetInstance(): (o: Lookup)
      reads this
      ensures o.Found? <==> rendererInstance != null && isInitialized
      ensures o.Found? ==> o.renderer == rendererInstance
      ensures o == NoInstance <==> rendererInstance == null
      ensures Valid() ==> o != NotInitialized
    {
      if rendererInstance == null then NoInstance
      else if !isInitialized then NotInitialized
      else Found(rendererInstance)
    }

    /**
     * Renderer(window, funcs): resolves the policy bundle, runs Init, and
     * registers the new renderer when none is registered yet. The outcome is
     * Init's; on success the renderer is valid and the flag is set; the
     * first registered renderer is never replaced.
     */
    method Create(funcs: RendererCustomFuncs, platform: Platform) returns (r: Result<Renderer, InitError>)
      requires Valid()
      modifies this
      ensures Valid()
      ensures r.Ok? <==> InitOutcome(platform, DEVICE_EXTENSIONS, DeviceCheckFor(funcs)).Ok?
      ensures r.Err? ==> InitOutcome(platform, DEVICE_EXTENSIONS, DeviceCheckFor(funcs)) == Err(r.error)
      ensures r.Ok? ==> fresh(r.value) && r.value.Valid() && r.value.isInitialized
      ensures isInitialized == (old(isInitialized) || r.Ok?)
      ensures rendererInstance == if old(rendererInstance) == null && r.Ok? then r.value else old(rendererInstance)
    {
      var renderer := new Renderer(funcs);
      var outcome := renderer.Init(platform);
      if outcome.Err? {
        return Err(outcome.error);
      }
      isInitialized := true;
      if rendererInstance == null {
        rendererInstance := renderer;
      }
      r := Ok(renderer);
    }
  }

  /**
   * A program's first renderer: building it decides Init's outcome, and
   * GetInstance() then finds exactly that renderer, or finds no instance
   * when Init threw.
   */
  method CreateThenGetInstance(funcs: RendererCustomFuncs, platform: Platform)
    returns (created: Result<Renderer, InitError>, lookup: Lookup)
    ensures created.Ok? <==> InitOutcome(platform, DEVICE_EXTENSIONS, DeviceCheckFor(funcs)).Ok?
    ensures created.Ok? ==> lookup == Found(created.value) && created.value.Valid()
    ensures created.Err? ==> lookup == NoInstance
  {
    var registry := new Registry();
    created := registry.Create(funcs, platform);
    lookup := registry.GetInstance();
  }

  /** With the built-in device predicate no renderer is ever created, so none is ever registered. */
  method DefaultPolicyNeverRegisters(funcs: RendererCustomFuncs, platform: Platform)
    returns (created: Result<Renderer, InitError>, lookup: Lookup)
    requires funcs.checkSuitableDeviceFunc.None?
    ensures created.Err? && lookup == NoInstance
  {
    DefaultPolicyNeverInitializes(platform, DEVICE_EXTENSIONS);
    var registry := new Registry();
    created := registry.Create(funcs, platform);
    lookup := registry.GetInstance();
  }
}
