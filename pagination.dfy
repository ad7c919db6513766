/**
 * read_json of cdn_image_population.py: the tours are cut into consecutive chunks of ten, each
 * chunk becomes one document named tour_images_part_<k>.docx with k counting from 1, each image
 * url of a tour is downloaded into the document, and a progress line names the tour's
 * 1-based position once per image.
 */
module Pagination {
  import opened Text
  import opened ImagePaths

  const ToursPerDoc: nat := 10
  const DocPrefix := "tour_images_part_"
  const DocSuffix := ".docx"

  /** The file download_images writes each fetched image to. */
  const DownloadedFile := "image.jpeg"

  /** The file download_images adds to the document: image_to_jpg("image.jpeg"), see DownloadedImageIsRenamed. */
  const AddedPicture := "image_result.jpg"

  /** One record of the JSON list: tour_id, tour_name, the city names and the image urls. */
  datatype Tour = Tour(tourId: string, tourName: string, cities: seq<string>, imageUrls: seq<string>)

  /** A picture added to a document: the image url it was downloaded from and the file added. */
  datatype Picture = Picture(url: string, file: string)

  /** A saved document: its file name, the tours written into it, and the pictures added. */
  datatype Document = Document(fileName: string, tours: seq<Tour>, pictures: seq<Picture>)

  /** f"tour_images_part_{k}.docx" */
  function DocName(k: nat): string
  {
    DocPrefix + NatToDecimal(k) + DocSuffix
  }

  /** Different counters name different files, so no document overwrites another. */
  lemma DocNamesDistinct(j: nat, k: nat)
    requires j != k
    ensures DocName(j) != DocName(k)
  {
    if DocName(j) == DocName(k) {
      var dj := DocName(j);
      var dk := DocName(k);
      assert |NatToDecimal(j)| == |NatToDecimal(k)|;
      var n := |NatToDecimal(j)|;
      assert dj[|DocPrefix|..|DocPrefix| + n] == NatToDecimal(j);
      assert dk[|DocPrefix|..|DocPrefix| + n] == NatToDecimal(k);
      DecimalInjective(j, k);
    }
  }

  /** The chunks data[i:i + 10] for i in range(0, len(data), 10). */
  function Pages(data: seq<Tour>): (r: seq<seq<Tour>>)
    decreases |data|
  {
    if data == [] then []
    else if |data| <= ToursPerDoc then [data]
    else [data[..ToursPerDoc]] + Pages(data[ToursPerDoc..])
  }

  /** There are ceil(n / 10) chunks: the c-th exists exactly when the tour at 10 c does. */
  lemma {:induction false} PageCount(data: seq<Tour>, c: nat)
    ensures |Pages(data)| == (|data| + ToursPerDoc - 1) / ToursPerDoc
    ensures ToursPerDoc * c < |data| <==> c < |Pages(data)|
    decreases |data|
  {
    if |data| > ToursPerDoc {
      PageCount(data[ToursPerDoc..], if c > 0 then c - 1 else 0);
    }
  }

  /** The k-th chunk is the slice starting at 10 k, cut short at the end of the list. */
  lemma {:induction false} PageAt(data: seq<Tour>, k: nat)
    requires ToursPerDoc * k < |data|
    ensures k < |Pages(data)|
    ensures Pages(data)[k] == data[ToursPerDoc * k .. if ToursPerDoc * k + ToursPerDoc <= |data| then ToursPerDoc * k + ToursPerDoc else |data|]
    decreases |data|
  {
    if |data| > ToursPerDoc && k > 0 {
      var rest := data[ToursPerDoc..];
      PageAt(rest, k - 1);
      assert Pages(data)[k] == Pages(rest)[k - 1];
      var lo := ToursPerDoc * (k - 1);
      var hi := if lo + ToursPerDoc <= |rest| then lo + ToursPerDoc else |rest|;
      assert rest[lo..hi] == data[ToursPerDoc + lo..ToursPerDoc + hi];
    }
  }

  /** Gluing the chunks back together gives the list itself: every tour once, in order. */
  lemma {:induction false} PagesFlatten(data: seq<Tour>)
    ensures Concat(Pages(data)) == data
    decreases |data|
  {
    if |data| > ToursPerDoc {
      var rest := data[ToursPerDoc..];
      PagesFlatten(rest);
      ConcatAppend([data[..ToursPerDoc]], Pages(rest));
      assert Concat([data[..ToursPerDoc]]) == Concat<Tour>([]) + data[..ToursPerDoc];
      assert data[..ToursPerDoc] + rest == data;
    } else if data != [] {
      assert Concat([data]) == Concat<Tour>([]) + data;
    }
  }

  /** No chunk is empty or longer than ten, and every chunk but the last holds exactly ten. */
  lemma {:induction false} PageSizes(data: seq<Tour>)
    ensures forall k :: 0 <= k < |Pages(data)| ==> 0 < |Pages(data)[k]| <= ToursPerDoc
    ensures forall k :: 0 <= k < |Pages(data)| - 1 ==> |Pages(data)[k]| == ToursPerDoc
    decreases |data|
  {
    if |data| > ToursPerDoc {
      PageSizes(data[ToursPerDoc..]);
    }
  }

  /** v repeated n times */
  function Repeat(v: nat, n: nat): (r: seq<nat>)
    ensures |r| == n && forall i :: 0 <= i < n ==> r[i] == v
  {
    if n == 0 then [] else Repeat(v, n - 1) + [v]
  }

  /**
   * The progress numbers of a run of tours whose first sits at 0-based position offset: the
   * i + index + 1 of line 63, once per image url of each tour.
   */
  function ChunkMarks(tours: seq<Tour>, offset: nat): seq<nat>
  {
    if tours == [] then []
    else ChunkMarks(tours[..|tours| - 1], offset) + Repeat(offset + |tours|, |tours[|tours| - 1].imageUrls|)
  }

  /** The progress numbers of the whole run: each tour's 1-based position, once per image url. */
  function Marks(data: seq<Tour>): seq<nat>
  {
    ChunkMarks(data, 0)
  }

  /** The progress numbers of one run continue those of the run before it. */
  lemma {:induction false} ChunkMarksAppend(a: seq<Tour>, b: seq<Tour>, offset: nat)
    ensures ChunkMarks(a + b, offset) == ChunkMarks(a, offset) + ChunkMarks(b, offset + |a|)
    decreases |b|
  {
    if b == [] {
      assert a + b == a;
    } else {
      var b', last := b[..|b| - 1], b[|b| - 1];
      var tail := Repeat(offset + |a| + |b|, |last.imageUrls|);
      assert (a + b)[..|a + b| - 1] == a + b' && (a + b)[|a + b| - 1] == last;
      assert ChunkMarks(a + b, offset) == ChunkMarks(a + b', offset) + tail;
      assert ChunkMarks(b, offset + |a|) == ChunkMarks(b', offset + |a|) + tail;
      ChunkMarksAppend(a, b', offset);
      assert ChunkMarks(a, offset) + ChunkMarks(b', offset + |a|) + tail
          == ChunkMarks(a, offset) + (ChunkMarks(b', offset + |a|) + tail);
    }
  }

  /** The progress numbers up to hi are those up to lo followed by the chunk's. */
  lemma MarksExtend(data: seq<Tour>, lo: nat, hi: nat)
    requires lo <= hi <= |data|
    ensures Marks(data[..hi]) == Marks(data[..lo]) + ChunkMarks(data[lo..hi], lo)
  {
    var front, chunk := data[..lo], data[lo..hi];
    assert front + chunk == data[..hi];
    ChunkMarksAppend(front, chunk, 0);
  }

  /** Total number of image urls. */
  function ImageCount(data: seq<Tour>): nat
  {
    if data == [] then 0 else ImageCount(data[..|data| - 1]) + |data[|data| - 1].imageUrls|
  }

  /** One progress line per image; each names a position between 1 and the number of tours, and they never go back. */
  lemma {:induction false} MarksInRange(data: seq<Tour>)
    ensures |Marks(data)| == ImageCount(data)
    ensures forall i :: 0 <= i < |Marks(data)| ==> 1 <= Marks(data)[i] <= |data|
    ensures forall i, j :: 0 <= i < j < |Marks(data)| ==> Marks(data)[i] <= Marks(data)[j]
  {
    if data != [] {
      var init := data[..|data| - 1];
      MarksInRange(init);
      var m := Marks(data);
      var prev := Marks(init);
      assert forall i :: 0 <= i < |prev| ==> m[i] == prev[i];
      assert forall i :: |prev| <= i < |m| ==> m[i] == |data|;
    }
  }

  /** The file download_images writes, "image.jpeg", reaches the document as "image_result.jpg". */
  lemma DownloadedImageIsRenamed()
    ensures ImageToJpg(DownloadedFile) == AddedPicture
  {
    assert "image" + "." + "jpeg" == DownloadedFile;
    assert "image" + ResultTail == AddedPicture;
    assert "." + "jpeg" == ".jpeg";
    assert ".jpeg" !in ValidImageExtensions by {
      assert ".jpeg"[2] == 'p' && ".jpeg"[1] == 'j';
    }
    RenamedInPlace("image", "jpeg");
  }

  /** The pictures download_images adds for the given urls: one per url that answers 200. */
  function TourPictures(urls: seq<string>, fetched: string -> bool): seq<Picture>
  {
    if urls == [] then []
    else
      var url := urls[|urls| - 1];
      TourPictures(urls[..|urls| - 1], fetched) + (if fetched(url) then [Picture(url, AddedPicture)] else [])
  }

  /** The pictures of a chunk of tours, tour after tour. */
  function Pictures(tours: seq<Tour>, fetched: string -> bool): seq<Picture>
  {
    if tours == [] then [] else Pictures(tours[..|tours| - 1], fetched) + TourPictures(tours[|tours| - 1].imageUrls, fetched)
  }

  /**
   * There is at most one picture per url; every picture is the converted download,
   * "image_result.jpg", of one of the urls that answered 200, and every such url has a picture.
   */
  lemma {:induction false} TourPicturesAreConverted(urls: seq<string>, fetched: string -> bool)
    ensures |TourPictures(urls, fetched)| <= |urls|
    ensures forall p :: p in TourPictures(urls, fetched) ==> p.file == AddedPicture && p.url in urls && fetched(p.url)
    ensures forall u :: u in urls && fetched(u) ==> Picture(u, AddedPicture) in TourPictures(urls, fetched)
  {
    if urls != [] {
      var init, url := urls[..|urls| - 1], urls[|urls| - 1];
      TourPicturesAreConverted(init, fetched);
      assert urls == init + [url];
    }
  }

  /** The documents read_json saves, in order. */
  function Documents(data: seq<Tour>, fetched: string -> bool): (r: seq<Document>)
    ensures |r| == |Pages(data)|
  {
    var pages := Pages(data);
    seq(|pages|, k requires 0 <= k < |pages| => Document(DocName(k + 1), pages[k], Pictures(pages[k], fetched)))
  }

  /** Lines 60-63: download every image of one tour, printing its position after each. */
  method DownloadTour(tour: Tour, position: nat, fetched: string -> bool) returns (pictures: seq<Picture>, marks: seq<nat>)
    ensures pictures == TourPictures(tour.imageUrls, fetched)
    ensures marks == Repeat(position, |tour.imageUrls|)
  {
    pictures := [];
    marks := [];
    var j := 0;
    while j < |tour.imageUrls|
      invariant 0 <= j <= |tour.imageUrls|
      invariant marks == Repeat(position, j)
      invariant pictures == TourPictures(tour.imageUrls[..j], fetched)
    {
      var url := tour.imageUrls[j];
      if fetched(url) {
        pictures := pictures + [Picture(url, AddedPicture)];
      }
      marks := marks + [position];
      assert tour.imageUrls[..j + 1][..j] == tour.imageUrls[..j];
      j := j + 1;
    }
    assert tour.imageUrls[..j] == tour.imageUrls;
  }

  /** Lines 50-65: write the tours data[lo:hi] into one document, tour after tour. */
  method WriteChunk(data: seq<Tour>, lo: nat, hi: nat, fetched: string -> bool) returns (pictures: seq<Picture>, marks: seq<nat>)
    requires lo <= hi <= |data|
    ensures pictures == Pictures(data[lo..hi], fetched)
    ensures marks == ChunkMarks(data[lo..hi], lo)
  {
    var chunk := data[lo..hi];
    pictures := [];
    marks := [];
    var index := 0;
    while index < |chunk|
      invariant 0 <= index <= |chunk|
      invariant pictures == Pictures(chunk[..index], fetched)
      invariant marks == ChunkMarks(chunk[..index], lo)
    {
      var tourPictures, tourMarks := DownloadTour(chunk[index], lo + index + 1, fetched);
      assert chunk[..index + 1][..index] == chunk[..index];
      pictures := pictures + tourPictures;
      marks := marks + tourMarks;
      index := index + 1;
    }
    assert chunk[..index] == chunk;
  }

  /** Lines 48-67: the c-th pass of the outer loop writes the tours data[i:i + 10] into document c + 1. */
  method SaveDocument(data: seq<Tour>, i: nat, c: nat, fetched: string -> bool) returns (doc: Document, marks: seq<nat>)
    requires i == ToursPerDoc * c < |data|
    ensures c < |Pages(data)| && doc == Documents(data, fetched)[c]
    ensures Marks(data[..i]) + marks == Marks(data[..if i + ToursPerDoc <= |data| then i + ToursPerDoc else |data|])
  {
    var hi := if i + ToursPerDoc <= |data| then i + ToursPerDoc else |data|;
    var chunk := data[i..hi];
    PageAt(data, c);
    var pictures;
    pictures, marks := WriteChunk(data, i, hi, fetched);
    MarksExtend(data, i, hi);
    doc := Document(DocName(c + 1), chunk, pictures);
  }

  /** read_json: the tours in, the saved documents and the progress numbers out. */
  method ReadJson(data: seq<Tour>, fetched: string -> bool) returns (docs: seq<Document>, progress: seq<nat>)
    ensures docs == Documents(data, fetched)
    ensures progress == Marks(data)
  {
    var totalTours := |data|;
    var docsCounter := 0;
    ghost var all := Documents(data, fetched);
    PageCount(data, 0);
    docs := [];
    progress := [];
    var i := 0;
    while i < totalTours
      invariant docsCounter == |docs| <= |all|
      invariant i == ToursPerDoc * docsCounter
      invariant i < totalTours <==> docsCounter < |all|
      invariant docs == all[..docsCounter]
      invariant progress == Marks(data[..if i <= totalTours then i else totalTours])
    {
      var doc, marks := SaveDocument(data, i, docsCounter, fetched);
      progress := progress + marks;
      docs := docs + [doc];
      docsCounter := docsCounter + 1;
      i := i + ToursPerDoc;
      PageCount(data, docsCounter);
    }
    assert data[..totalTours] == data;
  }
}
