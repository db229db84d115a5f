/**
 * ScreenUtility: conversion between normalized ([0, 1]) and absolute (pixel)
 * screen positions. The screen resolution, which the source reads from the
 * primary screen, is a parameter.
 */
module ScreenUtility {
  import opened Geometry

  /** The resolution has no zero side, so dividing by it is defined. */
  predicate IsProperResolution(resolution: Vector2) {
    resolution.x != 0.0 && resolution.y != 0.0
  }

  /** (0, 0) is the top-left pixel and (1, 1) the bottom-right corner of the screen. */
  function GetAbsolutePosition(normalizedPosition: Vector2, resolution: Vector2): (r: Vector2)
    ensures normalizedPosition == Vector2(0.0, 0.0) ==> r == Vector2(0.0, 0.0)
    ensures normalizedPosition == Vector2(1.0, 1.0) ==> r == resolution
  {
    Vector2(normalizedPosition.x * resolution.x, normalizedPosition.y * resolution.y)
  }

  function GetNormalizedPosition(absolutePosition: Vector2, resolution: Vector2): (r: Vector2)
    requires IsProperResolution(resolution)
    ensures absolutePosition == Vector2(0.0, 0.0) ==> r == Vector2(0.0, 0.0)
    ensures absolutePosition == resolution ==> r == Vector2(1.0, 1.0)
  {
    Vector2(absolutePosition.x / resolution.x, absolutePosition.y / resolution.y)
  }

  function GetAspectRatio(resolution: Vector2): (r: real)
    requires resolution.y != 0.0
    ensures resolution.x == resolution.y ==> r == 1.0
    ensures r == 0.0 <==> resolution.x == 0.0
  {
    resolution.x / resolution.y
  }

  /** Normalizing an absolute position gives back the normalized one it came from. */
  lemma NormalizeAfterAbsolute(normalizedPosition: Vector2, resolution: Vector2)
    requires IsProperResolution(resolution)
    ensures GetNormalizedPosition(GetAbsolutePosition(normalizedPosition, resolution), resolution) == normalizedPosition
  {
  }

  /** Converting a normalized position back to pixels gives the original pixel position. */
  lemma AbsoluteAfterNormalize(absolutePosition: Vector2, resolution: Vector2)
    requires IsProperResolution(resolution)
    ensures GetAbsolutePosition(GetNormalizedPosition(absolutePosition, resolution), resolution) == absolutePosition
  {
  }

  /** The aspect ratio scales the height back to the width. */
  lemma AspectRatioTimesHeight(resolution: Vector2)
    requires resolution.y != 0.0
    ensures GetAspectRatio(resolution) * resolution.y == resolution.x
  {
  }
}
