/**
 * The Item entity (a product with a stock counter) and its ItemImg
 * attachments.
 *
 * The stock counter changes through `removeStock`, which refuses to go below
 * zero, `addStock`, which never refuses, and `updateItem`, which overwrites
 * it without any check. The image set works as on a board: a hash set of
 * images compared by reference, each pointing back to its item, with the
 * ghost `history` recording creation order.
 */
module ItemEntity {
  import opened Basics
  import opened ImageOrder
  import StockLedger

  /** Sale status of an item. */
  datatype ItemSellStatus = SELL | SOLD_OUT

  /**
   * ItemFormDTO: the form `updateItem` reads and the snapshot `entityToDto`
   * builds.
   */
  datatype ItemFormDto = ItemFormDto(
    id: Option<int>,
    itemNm: string,
    itemDetail: string,
    itemSellStatus: Option<ItemSellStatus>,
    price: int,
    stockNumber: int,
    fileNames: seq<string>)

  class ItemImg {
    var uuid: string
    var fileName: string
    var ord: int
    /** "Y" or "N" in the application: whether this is the representative image; never interpreted here. */
    var repimgYn: string
    var item: Item?

    /** The builder call in `Item.addImage`. */
    constructor (uuid: string, fileName: string, ord: int, repimgYn: string, item: Item?)
      ensures this.uuid == uuid && this.fileName == fileName && this.ord == ord
      ensures this.repimgYn == repimgYn && this.item == item
    {
      this.uuid := uuid;
      this.fileName := fileName;
      this.ord := ord;
      this.repimgYn := repimgYn;
      this.item := item;
    }

    /** The fields that ordering and projection look at. */
    function Record(): ImageRecord
      reads this
    {
      ImageRecord(uuid, fileName, ord)
    }

    /** Re-point (or, with null, detach) the back-reference to the item; nothing else changes. */
    method ChangeBoard(item: Item?)
      modifies this`item
      ensures this.item == item
      ensures uuid == old(uuid) && fileName == old(fileName) && ord == old(ord) && repimgYn == old(repimgYn)
    {
      this.item := item;
    }
  }

  /** The records of a sequence of images, position by position. */
  function RecordsOf(images: seq<ItemImg>): (rs: seq<ImageRecord>)
    reads images
    ensures |rs| == |images|
    ensures forall i :: 0 <= i < |images| ==> rs[i] == images[i].Record()
  {
    seq(|images|, i reads images requires 0 <= i < |images| => images[i].Record())
  }

  /**
   * Two repetition-free enumerations of the same images, one of them in
   * creation order (the i-th has ord i): sorting the other by ord and
   * formatting gives the creation-order strings.
   */
  lemma ProjectionInCreationOrder(order: seq<ItemImg>, history: seq<ItemImg>)
    requires Distinct(order) && Distinct(history)
    requires forall x :: x in order <==> x in history
    requires forall i :: 0 <= i < |history| ==> history[i].ord == i
    ensures FileNames(RecordsOf(order)) == FormatAll(RecordsOf(history))
  {
    var records := map x | x in history :: x.Record();
    assert RecordsOf(order) == MapSeq(records, order);
    assert RecordsOf(history) == MapSeq(records, history);
    EnumerationProjectsInCreationOrder(order, history, records);
  }

  class Item {
    var id: Option<int>
    var itemNm: string
    var price: int
    var stockNumber: int
    var itemDetail: string
    var itemSellStatus: Option<ItemSellStatus>
    var imageSet: set<ItemImg>
    /** The images of imageSet in the order addImage created them. */
    ghost var history: seq<ItemImg>

    /**
     * The attachment invariant: history lists imageSet without repetition,
     * the i-th image created has ord i, and every image points back here.
     * It says nothing about the stock: updateItem may set any value.
     */
    ghost predicate Valid()
      reads this, imageSet
    {
      && Distinct(history)
      && (forall x :: x in imageSet ==> x in history)
      && (forall i :: 0 <= i < |history| ==> history[i] in imageSet && history[i].ord == i && history[i].item == this)
    }

    /** A new item with the given scalar fields and no images (the builder's default empty set). */
    constructor (id: Option<int>, itemNm: string, price: int, stockNumber: int, itemDetail: string,
                 itemSellStatus: Option<ItemSellStatus>)
      ensures this.id == id && this.itemNm == itemNm && this.price == price
      ensures this.stockNumber == stockNumber && this.itemDetail == itemDetail
      ensures this.itemSellStatus == itemSellStatus
      ensures imageSet == {} && history == []
      ensures Valid()
    {
      this.id := id;
      this.itemNm := itemNm;
      this.price := price;
      this.stockNumber := stockNumber;
      this.itemDetail := itemDetail;
      this.itemSellStatus := itemSellStatus;
      imageSet := {};
      history := [];
    }

    /**
     * `updateItem`: overwrite name, price, stock, detail and sale status from
     * the form, with no validation; id and images are untouched.
     */
    method UpdateItem(form: ItemFormDto)
      modifies this`itemNm, this`price, this`stockNumber, this`itemDetail, this`itemSellStatus
      ensures itemNm == form.itemNm && price == form.price && stockNumber == form.stockNumber
      ensures itemDetail == form.itemDetail && itemSellStatus == form.itemSellStatus
      ensures id == old(id) && imageSet == old(imageSet)
      ensures old(Valid()) ==> Valid()
    {
      itemNm := form.itemNm;
      price := form.price;
      stockNumber := form.stockNumber;
      itemDetail := form.itemDetail;
      itemSellStatus := form.itemSellStatus;
    }

    /**
     * `removeStock`: deduct `n` unless that would leave the stock negative;
     * then report OutOfStock with the current level and change nothing.
     */
    method RemoveStock(n: int) returns (outcome: StockLedger.Withdrawal)
      modifies this`stockNumber
      ensures outcome == StockLedger.Withdraw(old(stockNumber), n)
      ensures old(stockNumber) - n < 0 ==>
        outcome == StockLedger.OutOfStock(old(stockNumber)) && stockNumber == old(stockNumber)
      ensures old(stockNumber) - n >= 0 ==>
        outcome == StockLedger.Remaining(stockNumber) && stockNumber == old(stockNumber) - n
      ensures outcome.Remaining? ==> stockNumber >= 0
    {
      var restStock := stockNumber - n;
      if restStock < 0 {
        return StockLedger.OutOfStock(stockNumber);
      }
      stockNumber := restStock;
      outcome := StockLedger.Remaining(stockNumber);
    }

    /** `addStock`: add `n` with no bound and no rejection. */
    method AddStock(n: int)
      modifies this`stockNumber
      ensures stockNumber == StockLedger.Deposit(old(stockNumber), n)
      ensures stockNumber == old(stockNumber) + n
    {
      stockNumber := stockNumber + n;
    }

    /**
     * `addImage`: one new image, with ord equal to the number of images held
     * before, the given representative flag and a back-reference to this
     * item, joins the set.
     */
    method AddImage(uuid: string, fileName: string, repimgYn: string)
      modifies this`imageSet, this`history
      ensures |history| == |old(history)| + 1 && history[..|old(history)|] == old(history)
      ensures var img := history[|old(history)|];
        && fresh(img)
        && imageSet == old(imageSet) + {img}
        && img.uuid == uuid && img.fileName == fileName && img.repimgYn == repimgYn
        && img.ord == |old(imageSet)| && img.item == this
      ensures |imageSet| == |old(imageSet)| + 1
      ensures old(Valid()) ==> Valid()
    {
      var img := new ItemImg(uuid, fileName, |imageSet|, repimgYn, this);
      if Valid() {
        EnumerationMultiset(history, imageSet);
      }
      imageSet := imageSet + {img};
      history := history + [img];
    }

    /**
     * `clearImages`: every image that was in the set has its back-reference
     * set to null (in the set's iteration order), then the set is emptied.
     */
    method ClearImages()
      modifies this`imageSet, this`history, imageSet`item
      ensures imageSet == {} && history == []
      ensures Valid()
      ensures forall x :: x in old(imageSet) ==> x.item == null
      ensures forall x :: x in old(imageSet) ==> x.Record() == old(x.Record()) && x.repimgYn == old(x.repimgYn)
    {
      var pending := imageSet;
      while pending != {}
        invariant imageSet == old(imageSet)
        invariant pending <= imageSet
        invariant forall x :: x in imageSet && x !in pending ==> x.item == null
        invariant forall x :: x in imageSet ==> x.Record() == old(x.Record()) && x.repimgYn == old(x.repimgYn)
        decreases |pending|
      {
        var img :| img in pending;
        img.ChangeBoard(null);
        pending := pending - {img};
      }
      imageSet := {};
      history := [];
    }

    /**
     * `entityToDto`: copy the scalar fields; walk the image set in some
     * iteration order (`order`), sort by ord and format each image as
     * uuid + "_" + fileName. On an item built by AddImage calls the result is
     * the images in creation order, whatever the iteration order was.
     */
    method EntityToDto() returns (dto: ItemFormDto, ghost order: seq<ItemImg>)
      ensures dto.id == id && dto.itemNm == itemNm && dto.itemDetail == itemDetail
      ensures dto.itemSellStatus == itemSellStatus && dto.price == price && dto.stockNumber == stockNumber
      ensures Distinct(order) && (forall x :: x in order <==> x in imageSet)
      ensures dto.fileNames == FileNames(RecordsOf(order))
      ensures |dto.fileNames| == |imageSet|
      ensures Valid() ==> dto.fileNames == FormatAll(RecordsOf(history))
    {
      var pending := imageSet;
      var images: seq<ImageRecord> := [];
      order := [];
      while pending != {}
        invariant pending <= imageSet
        invariant Distinct(order)
        invariant forall x :: x in imageSet <==> x in order || x in pending
        invariant forall x :: x in order ==> x !in pending
        invariant images == RecordsOf(order)
        decreases |pending|
      {
        var img :| img in pending;
        images := images + [img.Record()];
        order := order + [img];
        pending := pending - {img};
      }
      EnumerationMultiset(order, imageSet);
      dto := ItemFormDto(id, itemNm, itemDetail, itemSellStatus, price, stockNumber, FileNames(images));
      if Valid() {
        ProjectionInCreationOrder(order, history);
      }
    }

    /** The display orders present among the images. */
    ghost function Ords(): set<int>
      reads this, imageSet
    {
      set x | x in imageSet :: x.ord
    }

    /** On a valid item the ords present are exactly 0 .. |imageSet|-1, one image each. */
    lemma OrdsDense()
      requires Valid()
      ensures forall x :: x in imageSet ==> 0 <= x.ord < |imageSet|
      ensures forall k :: 0 <= k < |imageSet| ==> k in Ords()
      ensures forall x, y :: x in imageSet && y in imageSet && x.ord == y.ord ==> x == y
    {
      EnumerationMultiset(history, imageSet);
      forall x | x in imageSet ensures 0 <= x.ord < |imageSet| {
        var i :| 0 <= i < |history| && history[i] == x;
      }
      forall k | 0 <= k < |imageSet| ensures k in Ords() {
        assert history[k] in imageSet && history[k].ord == k;
      }
      forall x, y | x in imageSet && y in imageSet && x.ord == y.ord ensures x == y {
        var i :| 0 <= i < |history| && history[i] == x;
        var j :| 0 <= j < |history| && history[j] == y;
      }
    }
  }
}
