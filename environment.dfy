/**
 * Environment.py and comsys.py: the propagation scenario a simulation runs
 * in. A scenario name selects the link geometry (antenna heights, the
 * constant C, the base-station distance factor and the cell radius), and
 * the three scenario classes fix the statistical channel parameters when
 * the system type is "MIMO".
 */
module Scenarios {
  import opened Wrappers

  /** Environment: the scenario name and its geometry; C is absent (None) in Urban Micro. */
  datatype Geometry = Geometry(scenario: string, hBs: real, hMs: real, c: Option<real>, d: real, r: real)

  const SuburbanMacroName := "Suburban Macro"
  const UrbanMacroName := "Urban Macro"
  const UrbanMicroName := "Urban Micro"

  predicate IsPreset(scenario: string) {
    scenario == SuburbanMacroName || scenario == UrbanMacroName || scenario == UrbanMicroName
  }

  /**
   * Environment.__init__: the three named scenarios have fixed geometries and
   * ignore the caller's values; any other name is accepted, and each field is
   * then the caller's value, or 0 when none is given.
   */
  function Environment(scenario: string, hBs: Option<real>, hMs: Option<real>, c: Option<real>,
                       d: Option<real>, r: Option<real>): (g: Geometry)
    ensures g.scenario == scenario
    ensures g.c.None? <==> scenario == UrbanMicroName
    ensures IsPreset(scenario) ==> g.hMs == 1.5 && g.hBs > 0.0 && g.d > 0.0 && g.r > 0.0
    ensures !IsPreset(scenario) ==>
      && g.hBs == hBs.GetOr(0.0) && g.hMs == hMs.GetOr(0.0) && g.c == Some(c.GetOr(0.0))
      && g.d == d.GetOr(0.0) && g.r == r.GetOr(0.0)
  {
    if scenario == SuburbanMacroName then Geometry(scenario, 32.0, 1.5, Some(0.0), 3.0, 1700.0)
    else if scenario == UrbanMacroName then Geometry(scenario, 32.0, 1.5, Some(3.0), 3.0, 1200.0)
    else if scenario == UrbanMicroName then Geometry(scenario, 12.5, 1.5, None, 1.0, 500.0)
    else Geometry(scenario, hBs.GetOr(0.0), hMs.GetOr(0.0), Some(c.GetOr(0.0)), d.GetOr(0.0), r.GetOr(0.0))
  }

  /** A named scenario's geometry does not depend on what the caller passes. */
  lemma PresetIgnoresOverrides(scenario: string, hBs: Option<real>, hMs: Option<real>, c: Option<real>,
                               d: Option<real>, r: Option<real>)
    requires IsPreset(scenario)
    ensures Environment(scenario, hBs, hMs, c, d, r) == Environment(scenario, None, None, None, None, None)
  {
  }

  /** An unknown scenario with nothing supplied is all zeros, with C = 0 rather than absent. */
  lemma UnknownScenarioDefaultsToZero(scenario: string)
    requires !IsPreset(scenario)
    ensures Environment(scenario, None, None, None, None, None) == Geometry(scenario, 0.0, 0.0, Some(0.0), 0.0, 0.0)
  {
  }

  /** The two macro cells: Urban Macro has the larger C and the smaller radius. */
  lemma MacroCellsDiffer()
    ensures var sub := Environment(SuburbanMacroName, None, None, None, None, None);
      var urb := Environment(UrbanMacroName, None, None, None, None, None);
      && sub.hBs == urb.hBs && sub.d == urb.d
      && sub.c.value < urb.c.value && urb.r < sub.r
  {
  }

  /** CommunicationSystem's statistics: angle and delay spreads, their log-normal parameters and ratios. */
  datatype LinkStatistics = LinkStatistics(
    meanAs: real, dBs: real, epsAs: real, muAs: real, epsDs: real, muDs: real,
    sigmaSh: real, rDs: real, rAs: real)

  /** CommunicationSystem: a system type and its statistics. */
  datatype CommunicationSystem = CommunicationSystem(systemType: string, stats: LinkStatistics)

  /** An instance of SuburbMacro, UrbMacro or UrbMicro: the geometry and the communication system. */
  datatype Scenario = Scenario(geometry: Geometry, system: CommunicationSystem)

  const MimoName := "MIMO"

  const SuburbanMacroMimo := LinkStatistics(5.0, 6.0, 0.13, 0.69, 0.18, -6.18, 8.0, 1.4, 1.2)
  const UrbanMacroMimo := LinkStatistics(2.0, 4.0, 0.34, 0.810, 0.288, -6.80, 8.0, 1.7, 1.3)
  const UrbanMicroMimo := LinkStatistics(16.0, 2.0, 0.0, 0.0, 0.0, 0.0, 10.0, 0.0, 0.0)

  /**
   * The shared shape of the three scenario classes: the geometry of the
   * scenario's name, and the "MIMO" constants in place of the caller's
   * statistics exactly when the system type is "MIMO".
   */
  function WithSystem(scenario: string, mimo: LinkStatistics, systemType: string, stats: LinkStatistics): (s: Scenario)
    requires IsPreset(scenario)
    ensures s.geometry == Environment(scenario, None, None, None, None, None)
    ensures s.system.systemType == systemType
    ensures systemType == MimoName ==> s.system.stats == mimo
    ensures systemType != MimoName ==> s.system.stats == stats
  {
    var geometry := Environment(scenario, None, None, None, None, None);
    if systemType == MimoName then Scenario(geometry, CommunicationSystem(systemType, mimo))
    else Scenario(geometry, CommunicationSystem(systemType, stats))
  }

  /** SuburbMacro. */
  function SuburbMacro(systemType: string, stats: LinkStatistics): (s: Scenario)
    ensures s.geometry.scenario == SuburbanMacroName && s.geometry.r == 1700.0
    ensures s.system.systemType == systemType
    ensures s.system.stats == (if systemType == MimoName then SuburbanMacroMimo else stats)
  {
    WithSystem(SuburbanMacroName, SuburbanMacroMimo, systemType, stats)
  }

  /** UrbMacro. */
  function UrbMacro(systemType: string, stats: LinkStatistics): (s: Scenario)
    ensures s.geometry.scenario == UrbanMacroName && s.geometry.r == 1200.0
    ensures s.system.systemType == systemType
    ensures s.system.stats == (if systemType == MimoName then UrbanMacroMimo else stats)
  {
    WithSystem(UrbanMacroName, UrbanMacroMimo, systemType, stats)
  }

  /** UrbMicro. */
  function UrbMicro(systemType: string, stats: LinkStatistics): (s: Scenario)
    ensures s.geometry.scenario == UrbanMicroName && s.geometry.c.None?
    ensures s.system.systemType == systemType
    ensures s.system.stats == (if systemType == MimoName then UrbanMicroMimo else stats)
  {
    WithSystem(UrbanMicroName, UrbanMicroMimo, systemType, stats)
  }

  /**
   * The macro scenarios under "MIMO" have positive delay- and angle-spread
   * ratios, which the path power computation divides by; Urban Micro sets
   * both to 0, so it cannot be used there.
   */
  lemma MimoSpreadRatios(a: LinkStatistics, b: LinkStatistics, c: LinkStatistics)
    ensures SuburbMacro(MimoName, a).system.stats.rDs > 0.0 && SuburbMacro(MimoName, a).system.stats.rAs > 0.0
    ensures UrbMacro(MimoName, b).system.stats.rDs > 0.0 && UrbMacro(MimoName, b).system.stats.rAs > 0.0
    ensures UrbMicro(MimoName, c).system.stats.rDs == 0.0 && UrbMicro(MimoName, c).system.stats.rAs == 0.0
  {
  }

  /** The system type never changes a scenario's geometry. */
  lemma GeometryIgnoresSystem(t1: string, t2: string, a: LinkStatistics, b: LinkStatistics)
    ensures SuburbMacro(t1, a).geometry == SuburbMacro(t2, b).geometry
    ensures UrbMacro(t1, a).geometry == UrbMacro(t2, b).geometry
    ensures UrbMicro(t1, a).geometry == UrbMicro(t2, b).geometry
  {
  }
}
