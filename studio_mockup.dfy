/** The upload area of `StudioMockup` (src/pages/StudioMockup.tsx): the
    images uploaded so far, added from dropped or chosen files and removed
    one at a time.

    `FileReader.readAsDataURL` is a parameter of type `Reader`: what the
    load of a file gives as `e.target.result`, `None` when it gives
    nothing. The loads are taken to finish in the order of the files. */
module StudioMockup {
  import opened Text
  import opened Seqs

  /** A dropped or chosen file, with its MIME type. */
  datatype File = File(name: string, mimeType: string)

  type Reader = File -> Option<string>

  const ImagePrefix := "image/"

  predicate IsImage(f: File) {
    StartsWith(f.mimeType, ImagePrefix)
  }

  /** `files.filter(file => file.type.startsWith('image/'))`. */
  function ImageFiles(files: seq<File>): seq<File> {
    Filter(files, IsImage)
  }

  /** A load appends its result only when that result is truthy: present
      and not the empty string. */
  predicate Truthy(result: Option<string>) {
    result.Some? && result.value != ""
  }

  /** The results the loads of `files` append, in the order of the files. */
  function LoadedResults(files: seq<File>, read: Reader): seq<string>
    decreases |files|
  {
    if files == [] then []
    else (if Truthy(read(files[0])) then [read(files[0]).value] else []) + LoadedResults(files[1..], read)
  }

  /** The images `handleFiles(files)` appends. */
  function Loaded(files: seq<File>, read: Reader): seq<string> {
    LoadedResults(ImageFiles(files), read)
  }

  lemma {:induction false} LoadedResultsAppend(a: seq<File>, b: seq<File>, read: Reader)
    ensures LoadedResults(a + b, read) == LoadedResults(a, read) + LoadedResults(b, read)
    decreases |a|
  {
    if a == [] {
      assert a + b == b;
    } else {
      assert (a + b)[1..] == a[1..] + b;
      LoadedResultsAppend(a[1..], b, read);
    }
  }

  /** One load at position `i` of the image files. */
  lemma LoadedResultsStep(fs: seq<File>, i: int, read: Reader)
    requires 0 <= i < |fs|
    ensures LoadedResults(fs[i..], read)
         == (if Truthy(read(fs[i])) then [read(fs[i]).value] else []) + LoadedResults(fs[i + 1..], read)
  {
    assert fs[i..][0] == fs[i];
    assert fs[i..][1..] == fs[i + 1..];
  }

  /** Handling two lots of files one after the other appends what handling
      them together would, in the same order. */
  lemma LoadedAppend(a: seq<File>, b: seq<File>, read: Reader)
    ensures Loaded(a + b, read) == Loaded(a, read) + Loaded(b, read)
  {
    FilterAppend(a, b, IsImage);
    LoadedResultsAppend(ImageFiles(a), ImageFiles(b), read);
  }

  /** A file that is not an image appends nothing, whatever its load would
      give; an image file appends its result exactly when that is truthy. */
  lemma OneFileLoaded(f: File, read: Reader)
    ensures Loaded([f], read) == if IsImage(f) && Truthy(read(f)) then [read(f).value] else []
  {
    assert [f][1..] == [];
    if IsImage(f) {
      assert ImageFiles([f]) == [f];
      assert LoadedResults([f], read)
          == (if Truthy(read(f)) then [read(f).value] else []) + LoadedResults([], read);
    } else {
      assert ImageFiles([f]) == [];
    }
  }

  /** Every image appended is the truthy result of loading an image file
      among `files`. */
  lemma {:induction false} LoadedFromImages(files: seq<File>, read: Reader)
    ensures forall x | x in Loaded(files, read) :: exists f | f in files :: IsImage(f) && read(f) == Some(x)
  {
    var images := ImageFiles(files);
    FilterKept(files, IsImage);
    forall x | x in LoadedResults(images, read)
      ensures exists f | f in images :: read(f) == Some(x)
    {
      LoadedResultsFrom(images, read, x);
    }
  }

  lemma {:induction false} LoadedResultsFrom(files: seq<File>, read: Reader, x: string)
    requires x in LoadedResults(files, read)
    ensures exists f | f in files :: read(f) == Some(x)
    decreases |files|
  {
    var head := if Truthy(read(files[0])) then [read(files[0]).value] else [];
    if x in head {
      assert read(files[0]) == Some(x);
    } else {
      LoadedResultsFrom(files[1..], read, x);
      var f :| f in files[1..] && read(f) == Some(x);
      assert f in files;
    }
  }

  /** `removeImage(index)`: `prev.filter((_, i) => i !== index)`. An index
      in range removes exactly that image and keeps the others in order;
      any other index changes nothing. */
  function RemoveAt(prev: seq<string>, index: int): (r: seq<string>)
    ensures 0 <= index < |prev| ==> r == prev[..index] + prev[index + 1..]
    ensures !(0 <= index < |prev|) ==> r == prev
    decreases |prev|
  {
    if prev == [] then []
    else (if index == 0 then [] else [prev[0]]) + RemoveAt(prev[1..], index - 1)
  }

  /** The upload area's state hooks. */
  class UploadArea {
    var uploadedImages: seq<string>
    var isDragging: bool

    constructor ()
      ensures uploadedImages == [] && !isDragging
    {
      uploadedImages, isDragging := [], false;
    }

    /** `hasImages`. */
    predicate HasImages()
      reads this
      ensures HasImages() <==> uploadedImages != []
    {
      |uploadedImages| > 0
    }

    /** `handleFiles(files)`: the image files are loaded one after the other
        and each truthy result is appended; the images already there keep
        their places. `images` is the list each load's `setUploadedImages`
        updater receives and extends. */
    method HandleFiles(files: seq<File>, read: Reader)
      modifies this
      ensures uploadedImages == old(uploadedImages) + Loaded(files, read)
      ensures isDragging == old(isDragging)
    {
      var imageFiles := ImageFiles(files);
      var images := uploadedImages;
      var i := 0;
      while i < |imageFiles|
        invariant 0 <= i <= |imageFiles|
        invariant images + LoadedResults(imageFiles[i..], read) == old(uploadedImages) + Loaded(files, read)
        invariant isDragging == old(isDragging)
      {
        var result := read(imageFiles[i]);
        LoadedResultsStep(imageFiles, i, read);
        ghost var rest := LoadedResults(imageFiles[i + 1..], read);
        if result.Some? && result.value != "" {
          assert images + ([result.value] + rest) == (images + [result.value]) + rest;
          images := images + [result.value];
        } else {
          assert [] + rest == rest;
        }
        i := i + 1;
      }
      assert imageFiles[i..] == [];
      assert images + [] == images;
      uploadedImages := images;
    }

    /** `handleDragOver`. */
    method DragOver()
      modifies this
      ensures isDragging && uploadedImages == old(uploadedImages)
    {
      isDragging := true;
    }

    /** `handleDragLeave`. */
    method DragLeave()
      modifies this
      ensures !isDragging && uploadedImages == old(uploadedImages)
    {
      isDragging := false;
    }

    /** `handleDrop`: the drag ends and the dropped files are handled. */
    method Drop(files: seq<File>, read: Reader)
      modifies this
      ensures !isDragging
      ensures uploadedImages == old(uploadedImages) + Loaded(files, read)
    {
      isDragging := false;
      HandleFiles(files, read);
    }

    /** `handleInputChange`: the chosen files, when the input has any, are
        handled. */
    method InputChange(files: Option<seq<File>>, read: Reader)
      modifies this
      ensures files.None? ==> uploadedImages == old(uploadedImages)
      ensures files.Some? ==> uploadedImages == old(uploadedImages) + Loaded(files.value, read)
      ensures isDragging == old(isDragging)
    {
      if files.Some? {
        HandleFiles(files.value, read);
      }
    }

    /** `removeImage(index)`. */
    method RemoveImage(index: int)
      modifies this
      ensures uploadedImages == RemoveAt(old(uploadedImages), index)
      ensures isDragging == old(isDragging)
    {
      uploadedImages := RemoveAt(uploadedImages, index);
    }
  }
}
