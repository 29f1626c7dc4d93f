/**
  Build-time constants of the engine that the bootstrap code refers to but does not define
  (the configuration header and the edition `ToString` table are not part of this model).
  src/main.cpp names these constants only, so the values below are assumed; no proof depends on them except
  `Editions.TokenNesting`, which relies on the NFS 2 token occurring inside the NFS 2 Special
  Edition token and the NFS 3 token inside the NFS 3 PlayStation token.
*/
module Config {

  // Edition folder tokens, as produced by ToString(tag).
  const NFS_2_SE_TOKEN: string := "NFS_2_SE"
  const NFS_2_TOKEN: string := "NFS_2"
  const NFS_3_PS1_TOKEN: string := "NFS_3_PS1"
  const NFS_3_TOKEN: string := "NFS_3"
  const NFS_4_TOKEN: string := "NFS_4"

  // Shared resource folder tokens.
  const LANES_TOKEN: string := "lanes"
  const MISC_TOKEN: string := "misc"
  const SFX_TOKEN: string := "sfx"

  // Root of the installed game data, iterated by PopulateAssets.
  const RESOURCE_PATH: string := "../resources/"

  // Working directories created at start-up.
  const CAR_PATH: string := "./assets/car/"
  const TRACK_PATH: string := "./assets/tracks/"

  // Per-edition sub-paths, appended to an edition folder's path.
  const NFS_2_SE_TRACK_PATH: string := "/GAMEDATA/TRACKS/SE/"
  const NFS_2_SE_CAR_PATH: string := "/GAMEDATA/CARMODEL/PC/"
  const NFS_2_TRACK_PATH: string := "/GAMEDATA/TRACKS/PC/"
  const NFS_2_CAR_PATH: string := "/GAMEDATA/CARMODEL/PC/"
  const NFS_3_TRACK_PATH: string := "/gamedata/tracks/"
  const NFS_3_CAR_PATH: string := "/gamedata/carmodel/"
  const NFS_4_TRACK_PATH: string := "/DATA/TRACKS/"
  const NFS_4_CAR_PATH: string := "/DATA/CARS/"

  // Window size used when `xres` / `yres` are not given.
  const DEFAULT_X_RESOLUTION: int := 1920
  const DEFAULT_Y_RESOLUTION: int := 1080
}
