/**
 The settings record of chef-load (`chef_load.Config`). Every field that a
 viper key fills is here; the validator reads and writes only the two URLs,
 the two credentials and `runChefClient`, and carries every other field
 through untouched.
 */
module ChefLoad {

  /** Go's `int` on a 64-bit platform. */
  newtype Int64 = x: int | -0x8000_0000_0000_0000 <= x < 0x8000_0000_0000_0000

  /** A Go `float64`, kept as its IEEE-754 bit pattern: nothing here computes with it. */
  datatype Float64 = Float64(bits: bv64)

  /** The `matrix.simulation.*` group of settings. */
  datatype Simulation = Simulation(
    nodes: Int64,
    days: Int64,
    maxScans: Int64,
    totalMaxScans: Int64,
    format: string
  )

  datatype Config = Config(
    chefServerURL: string,
    dataCollectorURL: string,
    clientName: string,
    clientKey: string,
    runChefClient: bool,
    nodeNamePrefix: string,
    numNodes: Int64,
    numActions: Int64,
    simulation: Simulation,
    randomData: bool,
    livenessAgent: bool,
    interval: Int64,
    downloadCookbooksScaleFactor: Float64,
    skipClientCreation: bool,
    nodeReplacementRate: Float64
  )

  /** The IEEE-754 bit patterns of the two float defaults, 1.0 and 0.0. */
  const One: Float64 := Float64(0x3FF0_0000_0000_0000)
  const Zero: Float64 := Float64(0)

  /**
   The record viper yields when neither a config file nor a flag sets
   anything: every key bound to a flag takes that flag's default, and the keys
   without a flag (`client_name`, `client_key`, `run_chef_client`) keep what
   the library default `base` holds.
   */
  function FlagDefaults(base: Config): (c: Config)
    ensures c.chefServerURL == "" && c.dataCollectorURL == ""
    ensures c.clientName == base.clientName && c.clientKey == base.clientKey
    ensures c.runChefClient == base.runChefClient
    ensures c.nodeNamePrefix == "chef-load" && c.interval == 30
    ensures c.numNodes == 0 && c.numActions == 0
    ensures c.simulation == Simulation(0, 0, 0, 0, "full")
    ensures !c.randomData && !c.livenessAgent && !c.skipClientCreation
    ensures c.downloadCookbooksScaleFactor == One && c.nodeReplacementRate == Zero
  {
    base.(
      dataCollectorURL := "",
      chefServerURL := "",
      nodeNamePrefix := "chef-load",
      numNodes := 0,
      numActions := 0,
      simulation := Simulation(0, 0, 0, 0, "full"),
      randomData := false,
      livenessAgent := false,
      interval := 30,
      downloadCookbooksScaleFactor := One,
      skipClientCreation := false,
      nodeReplacementRate := Zero
    )
  }
}
