/**
 * JRAConfigContainer: the six shared configurations of an app (font
 * sizes, alert colours, base colours, font colours, default font and the
 * logging engine) behind a guard that lets them be replaced only once.
 * The five style configurations are opaque values of their own types.
 */
module ConfigContainer {
  import Logging

  /** The message a rejected update logs. */
  const UpdateRejected := "Config Container can be updated only once"

  class Container<FontSize, AlertColor, BaseColor, FontColor, Font> {
    var fontSizeConfig: FontSize
    var alertConfig: AlertColor
    var baseColorConfig: BaseColor
    var fontColorConfig: FontColor
    var defaultFont: Font
    var logEngine: Logging.LogEngine
    /** 0 while the container may still be updated, 1 once it was updated or blocked. */
    var configUpdated: int

    /** Updates are still accepted. */
    predicate Updatable()
      reads this
    {
      configUpdated == 0
    }

    /** `init`: holds exactly the given configurations and is still updatable. */
    constructor (fontSizeConfig: FontSize, alertConfig: AlertColor, baseColorConfig: BaseColor,
                 fontColorConfig: FontColor, defaultFont: Font, logEngine: Logging.LogEngine)
      ensures this.fontSizeConfig == fontSizeConfig && this.alertConfig == alertConfig
      ensures this.baseColorConfig == baseColorConfig && this.fontColorConfig == fontColorConfig
      ensures this.defaultFont == defaultFont && this.logEngine == logEngine
      ensures Updatable()
    {
      this.fontSizeConfig := fontSizeConfig;
      this.alertConfig := alertConfig;
      this.baseColorConfig := baseColorConfig;
      this.fontColorConfig := fontColorConfig;
      this.defaultFont := defaultFont;
      this.logEngine := logEngine;
      configUpdated := 0;
    }

    /** `blockUpdate()`: every later update is rejected; no configuration changes. */
    method BlockUpdate()
      modifies this`configUpdated
      ensures !Updatable()
    {
      configUpdated := 1;
    }

    /**
     * `update(...)`: the first update replaces all six configurations and
     * closes the container; any later one changes none of them and logs
     * the rejection through the engine it was given, not the stored one.
     */
    method Update(fontSizeConfig: FontSize, alertConfig: AlertColor, baseColorConfig: BaseColor,
                  fontColorConfig: FontColor, defaultFont: Font, logEngine: Logging.LogEngine)
      modifies this, logEngine`output
      ensures !Updatable()
      ensures old(Updatable()) ==>
                && this.fontSizeConfig == fontSizeConfig && this.alertConfig == alertConfig
                && this.baseColorConfig == baseColorConfig && this.fontColorConfig == fontColorConfig
                && this.defaultFont == defaultFont && this.logEngine == logEngine
                && logEngine.output == old(logEngine.output)
      ensures !old(Updatable()) ==>
                && this.fontSizeConfig == old(this.fontSizeConfig) && this.alertConfig == old(this.alertConfig)
                && this.baseColorConfig == old(this.baseColorConfig) && this.fontColorConfig == old(this.fontColorConfig)
                && this.defaultFont == old(this.defaultFont) && this.logEngine == old(this.logEngine)
                && configUpdated == old(configUpdated)
                && logEngine.output == old(logEngine.output) + [UpdateRejected]
    {
      if configUpdated != 0 {
        logEngine.Log(UpdateRejected);
        return;
      }
      this.fontSizeConfig := fontSizeConfig;
      this.alertConfig := alertConfig;
      this.baseColorConfig := baseColorConfig;
      this.fontColorConfig := fontColorConfig;
      this.defaultFont := defaultFont;
      this.logEngine := logEngine;
      configUpdated := 1;
    }
  }

  /**
   * A blocked container rejects the next update: every configuration
   * keeps the value it had before the block.
   */
  method BlockThenUpdate<A, B, C, D, E>(c: Container<A, B, C, D, E>, a: A, b: B, cc: C, d: D, e: E, engine: Logging.LogEngine)
    modifies c, engine`output
    ensures c.fontSizeConfig == old(c.fontSizeConfig) && c.alertConfig == old(c.alertConfig)
    ensures c.baseColorConfig == old(c.baseColorConfig) && c.fontColorConfig == old(c.fontColorConfig)
    ensures c.defaultFont == old(c.defaultFont) && c.logEngine == old(c.logEngine)
    ensures engine.output == old(engine.output) + [UpdateRejected]
  {
    c.BlockUpdate();
    c.Update(a, b, cc, d, e, engine);
  }
}
