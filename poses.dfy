/** The twelve-step Surya Namaskar sequence (constants/poses.ts) and its image lookup. */
module Poses {
  import opened Storage

  datatype PoseData = PoseData(step: int, name: string, sanskrit: string, imageIndex: int)

  const PoseCount := 12

  const SuryaNamaskarPoses: seq<PoseData> := [
    PoseData(1, "Prayer Pose", "Pranamasana", 1),
    PoseData(2, "Raised Arms", "Hasta Uttanasana", 2),
    PoseData(3, "Forward Fold", "Uttanasana", 3),
    PoseData(4, "Equestrian Pose", "Ashwa Sanchalanasana", 4),
    PoseData(5, "Plank Pose", "Dandasana", 5),
    PoseData(6, "Eight-Limbed Salute", "Ashtanga Namaskara", 6),
    PoseData(7, "Cobra Pose", "Bhujangasana", 7),
    PoseData(8, "Downward Dog", "Adho Mukha Svanasana", 5),
    PoseData(9, "Equestrian Pose", "Ashwa Sanchalanasana", 4),
    PoseData(10, "Forward Fold", "Uttanasana", 3),
    PoseData(11, "Raised Arms", "Hasta Uttanasana", 2),
    PoseData(12, "Prayer Pose", "Pranamasana", 1)
  ]

  /** The bundled image assets, keyed by image index. */
  const PoseImages: map<int, string> := map[
    1 := "assets/images/sun-salutation/pose1.png",
    2 := "assets/images/sun-salutation/pose2.png",
    3 := "assets/images/sun-salutation/pose3.png",
    4 := "assets/images/sun-salutation/pose4.png",
    5 := "assets/images/sun-salutation/pose5.png",
    6 := "assets/images/sun-salutation/pose6.png",
    7 := "assets/images/sun-salutation/pose7.png"
  ]

  /** `getPoseImage(imageIndex)`: the asset for 1..7, `undefined` for any other index. */
  function GetPoseImage(imageIndex: int): (r: Option<string>)
    ensures r.Some? <==> 1 <= imageIndex <= 7
  {
    if imageIndex in PoseImages then Some(PoseImages[imageIndex]) else None
  }

  /** Distinct indices give distinct images. */
  lemma PoseImagesDistinct(i: int, j: int)
    requires GetPoseImage(i).Some? && GetPoseImage(j).Some? && i != j
    ensures GetPoseImage(i) != GetPoseImage(j)
  {
  }

  /**
   * The table's shape: twelve poses numbered 1..12 in order, every one with
   * an image, and the last pose (step 12) the same pose as the first (step 1).
   */
  lemma PoseTableWellFormed()
    ensures |SuryaNamaskarPoses| == PoseCount
    ensures forall i :: 0 <= i < PoseCount ==> SuryaNamaskarPoses[i].step == i + 1
    ensures forall i :: 0 <= i < PoseCount ==> 1 <= SuryaNamaskarPoses[i].imageIndex <= 7
    ensures forall i :: 0 <= i < PoseCount ==> GetPoseImage(SuryaNamaskarPoses[i].imageIndex).Some?
    ensures SuryaNamaskarPoses[0] == SuryaNamaskarPoses[PoseCount - 1].(step := 1)
  {
  }

  /**
   * The sequence mirrors itself: steps k and 13 - k (indices i and 11 - i)
   * share an image for k in 1..5, and the same pose for k in 1..4 (steps 5
   * and 8, Plank and Downward Dog, share only the image).
   */
  lemma PoseSequenceMirrors()
    ensures forall i :: 0 <= i < 5 ==> SuryaNamaskarPoses[i].imageIndex == SuryaNamaskarPoses[11 - i].imageIndex
    ensures forall i :: 0 <= i < 4 ==> SuryaNamaskarPoses[i].(step := 0) == SuryaNamaskarPoses[11 - i].(step := 0)
    ensures SuryaNamaskarPoses[4].name != SuryaNamaskarPoses[7].name
  {
  }
}
