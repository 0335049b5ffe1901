/**
 * The image uploader's list handling: dropped files are appended to the current images
 * and the list is cut to the maximum, and removing an image drops the one at its index.
 * Each change also rebuilds the preview list, one object URL per image; `objectUrl`
 * stands for `URL.createObjectURL`.
 */
module ImageUploader {
  import opened Base

  /** The `maxImages` prop's default. */
  const DEFAULT_MAX_IMAGES := 5

  /** Where JavaScript's `slice(0, end)` stops: a negative end counts back from the length. */
  function SliceEnd(len: nat, end: int): (k: nat)
    ensures k <= len
    ensures end >= 0 ==> k == if end < len then end else len
    ensures end < 0 ==> k == if len + end > 0 then len + end else 0
  {
    if end >= 0 then (if end < len then end else len)
    else if len + end > 0 then len + end else 0
  }

  /** `[...images, ...acceptedFiles].slice(0, maxImages)` */
  function DroppedImages<F>(images: seq<F>, accepted: seq<F>, maxImages: int): (r: seq<F>)
    ensures |r| == SliceEnd(|images| + |accepted|, maxImages)
    ensures r == (images + accepted)[..|r|]
  {
    (images + accepted)[..SliceEnd(|images| + |accepted|, maxImages)]
  }

  /** `onDrop(acceptedFiles)`: the list handed to `onChange`, and the new previews. */
  function OnDrop<F>(images: seq<F>, accepted: seq<F>, maxImages: int, objectUrl: F -> string)
    : (r: (seq<F>, seq<string>))
    ensures r.0 == DroppedImages(images, accepted, maxImages)
    ensures |r.1| == |r.0| && forall i :: 0 <= i < |r.0| ==> r.1[i] == objectUrl(r.0[i])
  {
    var newImages := DroppedImages(images, accepted, maxImages);
    (newImages, seq(|newImages|, i requires 0 <= i < |newImages| => objectUrl(newImages[i])))
  }

  /**
   * With a maximum that is not negative, a drop never grows the list beyond it, and a list
   * that was within it keeps every image it had, in front.
   */
  lemma DropBounds<F>(images: seq<F>, accepted: seq<F>, maxImages: int)
    requires maxImages >= 0
    ensures |DroppedImages(images, accepted, maxImages)| <= maxImages
    ensures |images| <= maxImages ==> DroppedImages(images, accepted, maxImages)[..|images|] == images
    ensures |images| + |accepted| <= maxImages ==> DroppedImages(images, accepted, maxImages) == images + accepted
  {
    var r := DroppedImages(images, accepted, maxImages);
    if |images| <= maxImages {
      assert |images| <= |r|;
      assert r[..|images|] == (images + accepted)[..|images|];
    }
  }

  /** Two drops in a row keep the same images as one drop of both batches. */
  lemma DropTwice<F>(images: seq<F>, first: seq<F>, second: seq<F>, maxImages: int)
    requires maxImages >= 0
    ensures DroppedImages(DroppedImages(images, first, maxImages), second, maxImages)
            == DroppedImages(images, first + second, maxImages)
  {
    var all := images + first + second;
    assert images + (first + second) == all;
    var once := DroppedImages(images, first, maxImages);
    assert once == all[..|once|];
    assert once + second == all[..|once|] + second;
    if |images + first| <= maxImages {
      assert once == images + first;
      assert once + second == all;
    } else {
      assert |once| == maxImages;
      assert (once + second)[..maxImages] == once;
    }
  }

  /** `images.filter((_, i) => i !== index)`, counting the position down as the list is walked. */
  function RemoveAt<F>(xs: seq<F>, index: int): (r: seq<F>)
    ensures 0 <= index < |xs| ==> r == xs[..index] + xs[index + 1..]
    ensures !(0 <= index < |xs|) ==> r == xs
    decreases |xs|
  {
    if xs == [] then []
    else
      var rest := RemoveAt(xs[1..], index - 1);
      assert index == 0 ==> rest == xs[1..];
      assert 0 < index < |xs| ==> xs[1..][..index - 1] == xs[1..index] && xs[1..][index..] == xs[index + 1..];
      (if index == 0 then [] else [xs[0]]) + rest
  }

  /** `removeImage(index)`: the list handed to `onChange`, and the previews cut at the same index. */
  function RemoveImage<F>(images: seq<F>, previews: seq<string>, index: int): (r: (seq<F>, seq<string>))
    ensures r.0 == RemoveAt(images, index) && r.1 == RemoveAt(previews, index)
  {
    (RemoveAt(images, index), RemoveAt(previews, index))
  }

  /** A removal drops exactly the element at the index: one fewer, every other element kept in order. */
  lemma RemoveExactlyOne<F>(xs: seq<F>, index: int)
    requires 0 <= index < |xs|
    ensures |RemoveAt(xs, index)| == |xs| - 1
    ensures forall i :: 0 <= i < index ==> RemoveAt(xs, index)[i] == xs[i]
    ensures forall i :: index <= i < |xs| - 1 ==> RemoveAt(xs, index)[i] == xs[i + 1]
    ensures multiset(RemoveAt(xs, index)) + multiset{xs[index]} == multiset(xs)
  {
    var front, back := xs[..index], xs[index + 1..];
    assert RemoveAt(xs, index) == front + back;
    Removed(xs, front, back, index);
  }

  /** The element-wise reading of `xs[..index] + xs[index + 1..]`. */
  lemma Removed<F>(xs: seq<F>, front: seq<F>, back: seq<F>, index: int)
    requires 0 <= index < |xs| && front == xs[..index] && back == xs[index + 1..]
    ensures |front + back| == |xs| - 1
    ensures forall i :: 0 <= i < index ==> (front + back)[i] == xs[i]
    ensures forall i :: index <= i < |xs| - 1 ==> (front + back)[i] == xs[i + 1]
    ensures multiset(front + back) + multiset{xs[index]} == multiset(xs)
  {
    assert xs == front + [xs[index]] + back;
  }

  /**
   * Previews stay beside their images: when every preview is its image's object URL, it
   * still is after removing the same index from both lists (`OnDrop` rebuilds them together).
   */
  lemma PreviewsAligned<F>(images: seq<F>, previews: seq<string>, index: int, objectUrl: F -> string)
    requires |previews| == |images| && forall i :: 0 <= i < |images| ==> previews[i] == objectUrl(images[i])
    ensures var r := RemoveImage(images, previews, index);
            |r.1| == |r.0| && forall i :: 0 <= i < |r.0| ==> r.1[i] == objectUrl(r.0[i])
  {
    if 0 <= index < |images| {
      RemoveExactlyOne(images, index);
      RemoveExactlyOne(previews, index);
    }
  }
}
