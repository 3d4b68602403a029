/**
 * The add-product form's list editors: the uploaded image addresses and the
 * feature lines, with index-based update and removal, and the submit flag.
 */
module AddProduct {

  /** `s.filter((x, j) => j !== index)`: drop the element at `index`, keep the rest in order. */
  function WithoutIndex<T>(s: seq<T>, index: int): (r: seq<T>)
    ensures |r| == if 0 <= index < |s| then |s| - 1 else |s|
  {
    if s == [] then []
    else (if index == 0 then [] else [s[0]]) + WithoutIndex(s[1..], index - 1)
  }

  /** Removing by index splices out exactly that element; an index outside the list changes nothing. */
  lemma {:induction false} WithoutIndexSplices<T>(s: seq<T>, index: int)
    ensures 0 <= index < |s| ==> WithoutIndex(s, index) == s[..index] + s[index + 1..]
    ensures !(0 <= index < |s|) ==> WithoutIndex(s, index) == s
  {
    if s != [] {
      WithoutIndexSplices(s[1..], index - 1);
      if index == 0 {
        assert s[1..] == s[..0] + s[1..];
      } else if 0 < index < |s| {
        assert s[..index] == [s[0]] + s[1..][..index - 1];
        assert s[index + 1..] == s[1..][index..];
      } else {
        assert s == [s[0]] + s[1..];
      }
    }
  }

  /**
   * The form's list state (`images`, `features`) and `submitted`. Once
   * submitted, the page shows only the success message, so the editors are
   * gone.
   */
  class ProductForm {
    var images: seq<string>
    var features: seq<string>
    var submitted: bool

    /** The editor never shows an empty feature list. */
    ghost predicate Valid()
      reads this
    {
      |features| >= 1
    }

    constructor ()
      ensures Valid()
      ensures images == [] && features == [""] && !submitted
    {
      images := [];
      features := [""];
      submitted := false;
    }

    /** `handleImageUpload`: the new files' addresses go after the existing ones, in file order. */
    method UploadImages(urls: seq<string>)
      requires Valid() && !submitted
      modifies this
      ensures Valid()
      ensures images == old(images) + urls
      ensures features == old(features) && submitted == old(submitted)
    {
      images := images + urls;
    }

    /** `removeImage(index)`. */
    method RemoveImage(index: int)
      requires Valid() && !submitted
      modifies this
      ensures Valid()
      ensures images == WithoutIndex(old(images), index)
      ensures 0 <= index < |old(images)| ==> images == old(images)[..index] + old(images)[index + 1..]
      ensures features == old(features) && submitted == old(submitted)
    {
      WithoutIndexSplices(images, index);
      images := WithoutIndex(images, index);
    }

    /** `addFeature`: a new empty line at the end. */
    method AddFeature()
      requires Valid() && !submitted
      modifies this
      ensures Valid()
      ensures features == old(features) + [""]
      ensures images == old(images) && submitted == old(submitted)
    {
      features := features + [""];
    }

    /** `updateFeature(index, value)`: copy the list, overwrite one slot, store the copy. */
    method UpdateFeature(index: nat, value: string)
      requires Valid() && !submitted && index < |features|
      modifies this
      ensures Valid()
      ensures |features| == |old(features)| && features[index] == value
      ensures forall j :: 0 <= j < |features| && j != index ==> features[j] == old(features)[j]
      ensures images == old(images) && submitted == old(submitted)
    {
      var current := features;
      var copy := new string[|current|](j requires 0 <= j < |current| => current[j]);
      copy[index] := value;
      features := copy[..];
    }

    /** `removeFeature(index)`: its button is rendered only while there is more than one line. */
    method RemoveFeature(index: nat)
      requires Valid() && !submitted && |features| > 1 && index < |features|
      modifies this
      ensures Valid()
      ensures features == old(features)[..index] + old(features)[index + 1..]
      ensures images == old(images) && submitted == old(submitted)
    {
      WithoutIndexSplices(features, index);
      features := WithoutIndex(features, index);
    }

    /** `handleSubmit`: only the flag changes; the product is not added to any catalog. */
    method Submit()
      requires Valid() && !submitted
      modifies this
      ensures Valid()
      ensures submitted
      ensures images == old(images) && features == old(features)
    {
      submitted := true;
    }
  }
}
