/** The static level record that the level manager holds a list of. */
module Levels {

  /** What the level prefab contributes to setup: the number of children under each of
      its three groups "Floor", "Walls" and "Buttons". */
  datatype LevelPrefab = LevelPrefab(floor: nat, walls: nat, buttons: nat)

  /** A level as serialized in the level manager's list. Note that numButtons is entered
      independently of the prefab's button group; nothing ties the two together. */
  datatype Level = Level(
    levelPrefab: LevelPrefab,
    difficulty: int,
    width: int,
    height: int,
    spawnX: int,
    spawnY: int,
    numButtons: int)
}
