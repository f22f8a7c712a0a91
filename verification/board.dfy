/**
 * The Board entity and its BoardImage attachments.
 *
 * A board owns a hash set of images; BoardImage does not override `equals`,
 * so the set compares images by reference, as a Dafny `set` of objects does.
 * Each image points back to its board; `clearImages` breaks that edge before
 * emptying the set. The ghost `history` lists the images in the order
 * `addImage` created them, which is what the ascending-ord projection
 * recovers from the unordered set.
 */
module BoardEntity {
  import opened Basics
  import opened ImageOrder

  /** The BoardDTO fields `entityToDto` fills. Timestamps are opaque values copied from the entity. */
  datatype BoardDto = BoardDto(
    bno: Option<int>,
    title: string,
    content: string,
    writer: string,
    regDate: Option<int>,
    modDate: Option<int>,
    fileNames: seq<string>)

  class BoardImage {
    var uuid: string
    var fileName: string
    var ord: int
    var board: Board?

    /** The builder call in `Board.addImage`. */
    constructor (uuid: string, fileName: string, ord: int, board: Board?)
      ensures this.uuid == uuid && this.fileName == fileName && this.ord == ord && this.board == board
    {
      this.uuid := uuid;
      this.fileName := fileName;
      this.ord := ord;
      this.board := board;
    }

    /** The fields that ordering and projection look at. */
    function Record(): ImageRecord
      reads this
    {
      ImageRecord(uuid, fileName, ord)
    }

    /** `compareTo`: its sign orders images by ord whenever both ords are non-negative Java ints. */
    function CompareTo(other: BoardImage): (r: int)
      reads this, other
      ensures IsInt32(r)
      ensures 0 <= ord <= INT_MAX && 0 <= other.ord <= INT_MAX ==>
        && (r < 0 <==> ord < other.ord)
        && (r == 0 <==> ord == other.ord)
        && (r > 0 <==> ord > other.ord)
    {
      ImageOrder.CompareTo(Record(), other.Record())
    }

    /** Re-point (or, with null, detach) the back-reference; nothing else of the image changes. */
    method ChangeBoard(board: Board?)
      modifies this`board
      ensures this.board == board
      ensures uuid == old(uuid) && fileName == old(fileName) && ord == old(ord)
    {
      this.board := board;
    }
  }

  /** The records of a sequence of images, position by position. */
  function RecordsOf(images: seq<BoardImage>): (rs: seq<ImageRecord>)
    reads images
    ensures |rs| == |images|
    ensures forall i :: 0 <= i < |images| ==> rs[i] == images[i].Record()
  {
    seq(|images|, i reads images requires 0 <= i < |images| => images[i].Record())
  }

  /**
   * Two repetition-free enumerations of the same images, one of them in
   * creation order (the i-th has ord i): sorting the other by ord and
   * formatting gives the creation-order strings.
   */
  lemma ProjectionInCreationOrder(order: seq<BoardImage>, history: seq<BoardImage>)
    requires Distinct(order) && Distinct(history)
    requires forall x :: x in order <==> x in history
    requires forall i :: 0 <= i < |history| ==> history[i].ord == i
    ensures FileNames(RecordsOf(order)) == FormatAll(RecordsOf(history))
  {
    var records := map x | x in history :: x.Record();
    assert RecordsOf(order) == MapSeq(records, order);
    assert RecordsOf(history) == MapSeq(records, history);
    EnumerationProjectsInCreationOrder(order, history, records);
  }

  /** Two walks of the same images project alike when no two of the images share an ord. */
  lemma ProjectionOrderIndependent(o1: seq<BoardImage>, o2: seq<BoardImage>)
    requires Distinct(o1) && Distinct(o2)
    requires forall x :: x in o1 <==> x in o2
    requires forall x, y :: x in o1 && y in o1 && x.ord == y.ord ==> x == y
    ensures FileNames(RecordsOf(o1)) == FileNames(RecordsOf(o2))
  {
    var records := map x | x in o1 :: x.Record();
    assert RecordsOf(o1) == MapSeq(records, o1);
    assert RecordsOf(o2) == MapSeq(records, o2);
    EnumerationsProjectAlike(o1, o2, records);
  }

  class Board {
    var bno: Option<int>
    var title: string
    var content: string
    var writer: string
    var regDate: Option<int>
    var modDate: Option<int>
    var imageSet: set<BoardImage>
    /** The images of imageSet in the order addImage created them. */
    ghost var history: seq<BoardImage>

    /**
     * The attachment invariant: history lists imageSet without repetition,
     * the i-th image created has ord i, and every image points back here.
     */
    ghost predicate Valid()
      reads this, imageSet
    {
      && Distinct(history)
      && (forall x :: x in imageSet ==> x in history)
      && (forall i :: 0 <= i < |history| ==> history[i] in imageSet && history[i].ord == i && history[i].board == this)
    }

    /** A new board with the given scalar fields and no images (the builder's default empty set). */
    constructor (bno: Option<int>, title: string, content: string, writer: string)
      ensures this.bno == bno && this.title == title && this.content == content && this.writer == writer
      ensures regDate == None && modDate == None
      ensures imageSet == {} && history == []
      ensures Valid()
    {
      this.bno := bno;
      this.title := title;
      this.content := content;
      this.writer := writer;
      regDate := None;
      modDate := None;
      imageSet := {};
      history := [];
    }

    /** `change`: overwrite title and content; bno, writer and the images stay as they were. */
    method Change(title: string, content: string)
      modifies this`title, this`content
      ensures this.title == title && this.content == content
      ensures bno == old(bno) && writer == old(writer) && imageSet == old(imageSet)
      ensures old(Valid()) ==> Valid()
    {
      this.title := title;
      this.content := content;
    }

    /**
     * `addImage`: one new image, with ord equal to the number of images held
     * before and a back-reference to this board, joins the set.
     */
    method AddImage(uuid: string, fileName: string)
      modifies this`imageSet, this`history
      ensures |history| == |old(history)| + 1 && history[..|old(history)|] == old(history)
      ensures var img := history[|old(history)|];
        && fresh(img)
        && imageSet == old(imageSet) + {img}
        && img.uuid == uuid && img.fileName == fileName
        && img.ord == |old(imageSet)| && img.board == this
      ensures |imageSet| == |old(imageSet)| + 1
      ensures old(Valid()) ==> Valid()
    {
      var img := new BoardImage(uuid, fileName, |imageSet|, this);
      if Valid() {
        EnumerationMultiset(history, imageSet);
      }
      imageSet := imageSet + {img};
      history := history + [img];
    }

    /**
     * `clearImages`: every image that was in the set has its back-reference
     * set to null (in the set's iteration order), then the set is emptied.
     */
    method ClearImages()
      modifies this`imageSet, this`history, imageSet`board
      ensures imageSet == {} && history == []
      ensures Valid()
      ensures forall x :: x in old(imageSet) ==> x.board == null
      ensures forall x :: x in old(imageSet) ==> x.Record() == old(x.Record())
    {
      var pending := imageSet;
      while pending != {}
        invariant imageSet == old(imageSet)
        invariant pending <= imageSet
        invariant forall x :: x in imageSet && x !in pending ==> x.board == null
        invariant forall x :: x in imageSet ==> x.Record() == old(x.Record())
        decreases |pending|
      {
        var img :| img in pending;
        img.ChangeBoard(null);
        pending := pending - {img};
      }
      imageSet := {};
      history := [];
    }

    /**
     * `entityToDto`: copy the scalar fields; walk the image set in some
     * iteration order (`order`), sort by ord and format each image as
     * uuid + "_" + fileName. On a board built by AddImage calls the result is
     * the images in creation order, whatever the iteration order was.
     */
    method EntityToDto() returns (dto: BoardDto, ghost order: seq<BoardImage>)
      ensures dto.bno == bno && dto.title == title && dto.content == content && dto.writer == writer
      ensures dto.regDate == regDate && dto.modDate == modDate
      ensures Distinct(order) && (forall x :: x in order <==> x in imageSet)
      ensures dto.fileNames == FileNames(RecordsOf(order))
      ensures |dto.fileNames| == |imageSet|
      ensures Valid() ==> dto.fileNames == FormatAll(RecordsOf(history))
    {
      var pending := imageSet;
      var images: seq<ImageRecord> := [];
      order := [];
      while pending != {}
        invariant pending <= imageSet
        invariant Distinct(order)
        invariant forall x :: x in imageSet <==> x in order || x in pending
        invariant forall x :: x in order ==> x !in pending
        invariant images == RecordsOf(order)
        decreases |pending|
      {
        var img :| img in pending;
        images := images + [img.Record()];
        order := order + [img];
        pending := pending - {img};
      }
      EnumerationMultiset(order, imageSet);
      dto := BoardDto(bno, title, content, writer, regDate, modDate, FileNames(images));
      if Valid() {
        ProjectionInCreationOrder(order, history);
      }
    }

    /** The display orders present among the images. */
    ghost function Ords(): set<int>
      reads this, imageSet
    {
      set x | x in imageSet :: x.ord
    }

    /** On a valid board the ords present are exactly 0 .. |imageSet|-1, one image each. */
    lemma OrdsDense()
      requires Valid()
      ensures forall x :: x in imageSet ==> 0 <= x.ord < |imageSet|
      ensures forall k :: 0 <= k < |imageSet| ==> k in Ords()
      ensures forall x, y :: x in imageSet && y in imageSet && x.ord == y.ord ==> x == y
    {
      EnumerationMultiset(history, imageSet);
      forall x | x in imageSet ensures 0 <= x.ord < |imageSet| {
        var i :| 0 <= i < |history| && history[i] == x;
      }
      forall k | 0 <= k < |imageSet| ensures k in Ords() {
        assert history[k] in imageSet && history[k].ord == k;
      }
      forall x, y | x in imageSet && y in imageSet && x.ord == y.ord ensures x == y {
        var i :| 0 <= i < |history| && history[i] == x;
        var j :| 0 <= j < |history| && history[j] == y;
      }
    }
  }
}
