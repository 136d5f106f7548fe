/** `handleFiles` of public/js/postUploader.js: the images picked in the
    post form are added to the ones already selected. The toast, the preview
    callback and the preview section's visibility are returned as values. */
module PostUploader {
  import opened Common

  /** A picked file, as far as `handleFiles` looks at it. */
  datatype File = File(name: string, mimeType: string)

  /** `file.type.startsWith('image/')` */
  predicate IsImage(f: File) {
    "image/" <= f.mimeType
  }

  /** `files.filter(file => file.type.startsWith('image/'))`: the image files,
      in their order. */
  function ImageFiles(files: seq<File>): (r: seq<File>)
    ensures |r| <= |files|
  {
    if files == [] then []
    else if IsImage(files[0]) then [files[0]] + ImageFiles(files[1..])
    else ImageFiles(files[1..])
  }

  /** The filter keeps a file exactly when it is an image. */
  lemma {:induction false} ImageFilesMembers(files: seq<File>)
    ensures forall f :: f in ImageFiles(files) <==> f in files && IsImage(f)
  {
    if files != [] {
      ImageFilesMembers(files[1..]);
      assert files == [files[0]] + files[1..];
    }
  }

  /** Filtering distributes over concatenation, so the order of the picks is
      kept. */
  lemma {:induction false} ImageFilesAppend(a: seq<File>, b: seq<File>)
    ensures ImageFiles(a + b) == ImageFiles(a) + ImageFiles(b)
  {
    if a == [] {
      assert a + b == b;
    } else {
      assert (a + b)[0] == a[0] && (a + b)[1..] == a[1..] + b;
      ImageFilesAppend(a[1..], b);
    }
  }

  /** A pick made of images only is taken whole. */
  lemma {:induction false} ImageFilesAllImages(files: seq<File>)
    requires forall k :: 0 <= k < |files| ==> IsImage(files[k])
    ensures ImageFiles(files) == files
  {
    if files != [] {
      ImageFilesAllImages(files[1..]);
    }
  }

  datatype Toast = Toast(message: string, level: string)

  /** What one call leaves behind: the returned list, the toast shown (if
      any), the list given to `displayImagePreviews` (if it was called), and
      whether the preview section is displayed. */
  datatype Upload = Upload(selected: seq<File>, toast: Option<Toast>, previews: Option<seq<File>>, sectionShown: bool)

  const NoImagesToast := Toast("Please select valid image files.", "error")

  /** `handleFiles(files, selectedImages, showToast, displayImagePreviews, imagePreviewSection)`
      with `sectionShown` the section's visibility before the call. */
  function HandleFiles(files: seq<File>, selected: seq<File>, sectionShown: bool): (r: Upload)
    ensures |r.selected| == |selected| + |ImageFiles(files)|
    ensures r.selected[..|selected|] == selected
    ensures r.toast.Some? <==> (forall k :: 0 <= k < |files| ==> !IsImage(files[k]))
    ensures r.toast.Some? ==> r.toast == Some(NoImagesToast) && r.selected == selected
                              && r.previews.None? && r.sectionShown == sectionShown
    ensures r.toast.None? ==> r.previews == Some(r.selected) && r.sectionShown
  {
    var images := ImageFiles(files);
    ImageFilesMembers(files);
    if |images| == 0 then
      assert forall k :: 0 <= k < |files| ==> files[k] !in images;
      Upload(selected, Some(NoImagesToast), None, sectionShown)
    else
      var updated := selected + images;
      assert images[0] in files;
      assert updated[..|selected|] == selected;
      Upload(updated, None, Some(updated), true)
  }

  /** Handling two picks one after the other selects the same images, in the
      same order, as handling them as one pick. */
  lemma HandleFilesInTwoPicks(a: seq<File>, b: seq<File>, selected: seq<File>, shown: bool)
    ensures var first := HandleFiles(a, selected, shown);
            HandleFiles(b, first.selected, shown).selected == HandleFiles(a + b, selected, shown).selected
  {
    ImageFilesAppend(a, b);
    HandleFilesSelects(a, selected, shown);
    HandleFilesSelects(b, HandleFiles(a, selected, shown).selected, shown);
    HandleFilesSelects(a + b, selected, shown);
  }

  /** Whatever the case, the selection after the call is the old one
      followed by the image files. */
  lemma HandleFilesSelects(files: seq<File>, selected: seq<File>, shown: bool)
    ensures HandleFiles(files, selected, shown).selected == selected + ImageFiles(files)
  {
    if ImageFiles(files) == [] {
      assert selected + ImageFiles(files) == selected;
    }
  }

  /** A selection made of images stays made of images. */
  lemma HandleFilesKeepsImagesOnly(files: seq<File>, selected: seq<File>, shown: bool)
    requires forall k :: 0 <= k < |selected| ==> IsImage(selected[k])
    ensures var r := HandleFiles(files, selected, shown).selected;
            forall k :: 0 <= k < |r| ==> IsImage(r[k])
  {
    var r := HandleFiles(files, selected, shown).selected;
    HandleFilesSelects(files, selected, shown);
    ImageFilesMembers(files);
    forall k | 0 <= k < |r|
      ensures IsImage(r[k])
    {
      if k >= |selected| {
        assert r[k] == ImageFiles(files)[k - |selected|];
      }
    }
  }

  /** The two cases of the unit tests: a text file and a PDF are refused with
      the error toast and leave nothing selected; two images are both taken
      and previewed. */
  lemma HandleFilesExamples()
    ensures var r := HandleFiles([File("a.txt", "text/plain"), File("b.pdf", "application/pdf")], [], false);
            r.toast == Some(NoImagesToast) && |r.selected| == 0
    ensures var r := HandleFiles([File("img1.png", "image/png"), File("img2.jpg", "image/jpeg")], [], false);
            |r.selected| == 2 && r.previews.Some? && r.sectionShown
  {
    assert !IsImage(File("a.txt", "text/plain")) by {
      assert "text/plain"[0] != "image/"[0];
    }
    assert !IsImage(File("b.pdf", "application/pdf")) by {
      assert "application/pdf"[0] != "image/"[0];
    }
    assert IsImage(File("img1.png", "image/png")) by {
      assert "image/png"[..6] == "image/";
    }
    assert IsImage(File("img2.jpg", "image/jpeg")) by {
      assert "image/jpeg"[..6] == "image/";
    }
  }
}
