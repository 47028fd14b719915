/** The task, item and state records shared by the scheduler, the checkpoint and the engine. */
module Models {
  import opened Wrappers

  const TWO_TO_32 := 0x1_0000_0000
  const TWO_TO_64 := 0x1_0000_0000_0000_0000
  const TWO_TO_128 := 0x1_0000_0000_0000_0000_0000_0000_0000_0000

  type U32Int = x: int | 0 <= x < TWO_TO_32
  type U64 = x: int | 0 <= x < TWO_TO_64
  type U128 = x: int | 0 <= x < TWO_TO_128

  datatype Direction = PcToAndroid | AndroidToPc

  datatype TransportMode = AdbOnly | WifiOnly | Dual

  datatype TaskState = Pending | Running | Paused | Completed | Failed | Cancelled

  datatype Lane = Adb | Wifi

  datatype TaskConfig = TaskConfig(
    taskId: string,
    direction: Direction,
    transportMode: TransportMode,
    verifyEnabled: bool,
    sourceRoot: string,
    targetRoot: string,
    chunkSizeBytes: U64,
    smallFileThresholdBytes: U64,
    maxInFlightChunksPerLane: U64,
    createdAtEpochMs: U128)

  datatype TransferItem = TransferItem(
    relativePath: string,
    sizeBytes: U64,
    modifiedAtEpochMs: U128,
    fingerprint: Option<string>)

  predicate IsLargeFile(sizeBytes: nat, threshold: nat) { sizeBytes >= threshold }

  function OtherLane(lane: Lane): Lane { match lane case Adb => Wifi case Wifi => Adb }
}
