/**
 * MoonlightBridge: the same controller under the package name the native
 * bindings look for. It owns one plugin for its whole life and forwards
 * every call to it.
 */
module ExampleMoonlight {
  import opened JavaTypes
  import opened StreamConfig
  import opened Session
  import opened PluginListener
  import opened LimelightXR

  /** The defaults of the two-argument connect: standard discovery ports, 1080p at 60 fps, 20 Mbps. */
  const DEFAULT_HTTP_PORT: int32 := 47984
  const DEFAULT_HTTPS_PORT: int32 := 47989
  const DEFAULT_WIDTH: int32 := 1920
  const DEFAULT_HEIGHT: int32 := 1080
  const DEFAULT_FPS: int32 := 60
  const DEFAULT_BITRATE: int32 := 20000

  /** The arguments the two-argument connect hands on to the plugin. */
  function DefaultConnectArgs(host: string, appId: string): (a: ConnectArgs)
    ensures FpsInRange(a.fps)
    ensures a == ConnectArgs(host, 47984, 47989, appId, 1920, 1080, 60, 20000, None)
  {
    ConnectArgs(host, DEFAULT_HTTP_PORT, DEFAULT_HTTPS_PORT, appId,
                DEFAULT_WIDTH, DEFAULT_HEIGHT, DEFAULT_FPS, DEFAULT_BITRATE, None)
  }

  class MoonlightBridge {
    /** Created with the bridge and never replaced. */
    const plugin: MoonlightXRPlugin

    constructor ()
      ensures fresh(plugin)
      ensures plugin.Snapshot() == INITIAL && plugin.listener == null && plugin.log == []
    {
      plugin := new MoonlightXRPlugin();
    }

    /** connect(host, appId): the full connect with the defaults above. */
    method ConnectDefault(host: string, appId: string, platform: Platform) returns (ok: bool)
      modifies plugin
      ensures ok
      ensures var step := ConnectStep(old(plugin.Snapshot()), DefaultConnectArgs(host, appId), platform);
              plugin.Snapshot() == step.fields && plugin.log == old(plugin.log) + step.effects
      ensures plugin.listener == old(plugin.listener)
    {
      ok := Connect(host, DEFAULT_HTTP_PORT, DEFAULT_HTTPS_PORT, appId,
                    DEFAULT_WIDTH, DEFAULT_HEIGHT, DEFAULT_FPS, DEFAULT_BITRATE, platform);
    }

    /** Passes every argument unchanged to the plugin's eight-argument connect and returns its answer. */
    method Connect(host: string, port: int32, httpsPort: int32, uniqueId: string,
                   width: int32, height: int32, fps: int32, bitrate: int32, platform: Platform)
      returns (ok: bool)
      requires FpsInRange(fps)
      modifies plugin
      ensures ok
      ensures var step := ConnectStep(old(plugin.Snapshot()),
                                      ConnectArgs(host, port, httpsPort, uniqueId, width, height, fps, bitrate, None),
                                      platform);
              plugin.Snapshot() == step.fields && plugin.log == old(plugin.log) + step.effects
      ensures plugin.listener == old(plugin.listener)
    {
      ok := plugin.Connect(host, port, httpsPort, uniqueId, width, height, fps, bitrate, platform);
    }

    method SetListener(listener: Listener?)
      modifies plugin
      ensures plugin.listener == listener
      ensures plugin.Snapshot() == old(plugin.Snapshot()) && plugin.log == old(plugin.log)
    {
      plugin.SetListener(listener);
    }

    method StartStream()
      modifies plugin
      ensures plugin.Snapshot() == old(plugin.Snapshot()) && plugin.listener == old(plugin.listener)
      ensures plugin.log == old(plugin.log) + StartStep(old(plugin.Snapshot())).effects
    {
      plugin.StartStream();
    }

    method StopStream()
      modifies plugin
      ensures plugin.Snapshot() == INITIAL && plugin.listener == old(plugin.listener)
      ensures plugin.log == old(plugin.log) + StopStep(old(plugin.Snapshot())).effects
    {
      plugin.StopStream();
    }

    /** The plugin's texture id, unchanged: -1 whenever the plugin has none. */
    method GetVideoTextureId() returns (id: int32)
      ensures id == plugin.textureId
      ensures Released(plugin.Snapshot()) ==> id == NO_TEXTURE
    {
      id := plugin.GetVideoTextureId();
    }

    method UpdateVideoTexture()
      modifies plugin
      ensures plugin.Snapshot() == old(plugin.Snapshot()) && plugin.listener == old(plugin.listener)
      ensures plugin.log == old(plugin.log) + UpdateStep(old(plugin.Snapshot())).effects
    {
      plugin.UpdateVideoTexture();
    }
  }
}
