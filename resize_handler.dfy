/** The drag handle of src/components/ResizeHandler.ts, which resizes the
    editor pane between a 200-pixel floor and a ceiling that leaves 200
    pixels for the chat section. Pixel values are integers. */
module Resize {
  import opened Js

  const MIN_EDITOR_HEIGHT: int := 200
  const MIN_CHAT_HEIGHT: int := 200

  function Max(a: int, b: int): int {
    if a >= b then a else b
  }

  /** The height a drag proposes: the height at mouse-down moved by the
      pointer's travel, never below the floor. */
  function ProposedHeight(startHeight: int, startY: int, clientY: int): (h: int)
    ensures h >= MIN_EDITOR_HEIGHT
    ensures h >= startHeight + (clientY - startY)
    ensures h == MIN_EDITOR_HEIGHT || h == startHeight + (clientY - startY)
  {
    Max(MIN_EDITOR_HEIGHT, startHeight + (clientY - startY))
  }

  /** The ceiling, from the parent's height; no parent counts as 0. */
  function MaxHeight(containerHeight: Option<int>): int {
    (if containerHeight.Some? then containerHeight.value else 0) - MIN_CHAT_HEIGHT
  }

  class ResizeHandler {
    var startY: int
    var startHeight: int
    var isDragging: bool
    /** The editor wrapper's height. */
    var height: int
    /** How many times `onResize` has been called. */
    var resizes: nat

    constructor (height: int)
      ensures !isDragging && startY == 0 && startHeight == 0
      ensures this.height == height && resizes == 0
    {
      startY := 0;
      startHeight := 0;
      isDragging := false;
      this.height := height;
      resizes := 0;
    }

    /** Starts a drag at the pointer's position and the current height. */
    method OnMouseDown(clientY: int)
      modifies this`isDragging, this`startY, this`startHeight
      ensures isDragging && startY == clientY && startHeight == height
    {
      isDragging := true;
      startY := clientY;
      startHeight := height;
    }

    /** Applies the proposed height, and reports a resize, only while dragging
        and only when the proposal fits under the ceiling. */
    method OnMouseMove(clientY: int, containerHeight: Option<int>)
      modifies this`height, this`resizes
      ensures var applied := isDragging && ProposedHeight(startHeight, startY, clientY) <= MaxHeight(containerHeight);
              height == (if applied then ProposedHeight(startHeight, startY, clientY) else old(height))
              && resizes == (if applied then old(resizes) + 1 else old(resizes))
      ensures resizes == old(resizes) + 1 ==>
                MIN_EDITOR_HEIGHT <= height <= MaxHeight(containerHeight)
      ensures !isDragging ==> height == old(height) && resizes == old(resizes)
    {
      if !isDragging {
        return;
      }
      var deltaY := clientY - startY;
      var newHeight := Max(MIN_EDITOR_HEIGHT, startHeight + deltaY);
      var container := if containerHeight.Some? then containerHeight.value else 0;
      var maxHeight := container - MIN_CHAT_HEIGHT;
      if newHeight <= maxHeight {
        height := newHeight;
        resizes := resizes + 1;
      }
    }

    method OnMouseUp()
      modifies this`isDragging
      ensures !isDragging
    {
      isDragging := false;
    }
  }

  /** A container shorter than the two minimums together, or no container,
      leaves no height that both fits and respects the floor. */
  lemma SmallContainerNeverResizes(startHeight: int, startY: int, clientY: int, containerHeight: Option<int>)
    requires containerHeight.None? || containerHeight.value < MIN_EDITOR_HEIGHT + MIN_CHAT_HEIGHT
    ensures ProposedHeight(startHeight, startY, clientY) > MaxHeight(containerHeight)
  {
  }
}
