/**
 * Whole-use scenarios that a caller can prove from the entities' contracts
 * alone: a stock run that empties the item and then fails, and a board whose
 * projected file names follow upload order and start over after clearing.
 */
module Scenarios {
  import opened Basics
  import StockLedger
  import opened ItemEntity
  import opened BoardEntity

  /** An item with stock 500: taking 500 succeeds and leaves 0; taking 1 more fails with OutOfStock(0). */
  method DrainStock() returns (first: StockLedger.Withdrawal, second: StockLedger.Withdrawal, left: int)
    ensures first == StockLedger.Remaining(0)
    ensures second == StockLedger.OutOfStock(0)
    ensures left == 0
  {
    var item := new Item(None, "item", 55000, 500, "detail", Some(SELL));
    first := item.RemoveStock(500);
    second := item.RemoveStock(1);
    left := item.stockNumber;
  }

  /** `updateItem` does not validate: a negative stock from the form is stored, and then any deduction fails. */
  method NegativeStockThroughUpdate() returns (stock: int, outcome: StockLedger.Withdrawal)
    ensures stock == -5
    ensures outcome == StockLedger.OutOfStock(-5)
  {
    var item := new Item(None, "item", 55000, 500, "detail", Some(SELL));
    item.UpdateItem(ItemFormDto(None, "item", "detail", Some(SOLD_OUT), 55000, -5, []));
    stock := item.stockNumber;
    outcome := item.RemoveStock(0);
  }

  /** The display strings of the uploads used below. */
  lemma UploadNames()
    ensures ImageOrder.FormatAll([ImageOrder.ImageRecord("u1", "a.jpg", 0), ImageOrder.ImageRecord("u2", "b.jpg", 1),
                                  ImageOrder.ImageRecord("u3", "c.jpg", 2)])
         == ["u1_a.jpg", "u2_b.jpg", "u3_c.jpg"]
    ensures ImageOrder.FormatAll([ImageOrder.ImageRecord("u4", "d.jpg", 0)]) == ["u4_d.jpg"]
  {
    assert ImageOrder.Format(ImageOrder.ImageRecord("u1", "a.jpg", 0)) == "u1_a.jpg";
    assert ImageOrder.Format(ImageOrder.ImageRecord("u2", "b.jpg", 1)) == "u2_b.jpg";
    assert ImageOrder.Format(ImageOrder.ImageRecord("u3", "c.jpg", 2)) == "u3_c.jpg";
    assert ImageOrder.Format(ImageOrder.ImageRecord("u4", "d.jpg", 0)) == "u4_d.jpg";
  }

  /** A fresh board after three uploads: it is valid and lists them in upload order with ords 0, 1, 2. */
  method ThreeUploads() returns (board: Board)
    ensures board.Valid()
    ensures BoardEntity.RecordsOf(board.history) == [ImageOrder.ImageRecord("u1", "a.jpg", 0),
      ImageOrder.ImageRecord("u2", "b.jpg", 1), ImageOrder.ImageRecord("u3", "c.jpg", 2)]
  {
    board := new Board(None, "title", "content", "writer");
    board.AddImage("u1", "a.jpg");
    var i1 := board.history[0];
    board.AddImage("u2", "b.jpg");
    var i2 := board.history[1];
    board.AddImage("u3", "c.jpg");
    var i3 := board.history[2];
    assert board.history == [i1, i2, i3];
  }

  /** Three uploads to a fresh board project as "u1_a.jpg", "u2_b.jpg", "u3_c.jpg", in upload order. */
  method UploadOrder() returns (names: seq<string>)
    ensures names == ["u1_a.jpg", "u2_b.jpg", "u3_c.jpg"]
  {
    var board := ThreeUploads();
    var dto, order := board.EntityToDto();
    names := dto.fileNames;
    UploadNames();
  }

  /**
   * Projecting the same board twice, with no change in between, gives the
   * same file names, whatever order each walk of the set takes, as long as
   * no two images share an ord.
   */
  method ProjectTwice(board: Board) returns (first: seq<string>, second: seq<string>)
    requires forall x, y :: x in board.imageSet && y in board.imageSet && x.ord == y.ord ==> x == y
    ensures first == second
    ensures |first| == |board.imageSet|
  {
    var dto, order := board.EntityToDto();
    first := dto.fileNames;
    var dto2, order2 := board.EntityToDto();
    second := dto2.fileNames;
    ProjectionOrderIndependent(order, order2);
  }

  /** After clearing, the old images are detached and the next upload is numbered from 0 again. */
  method ClearThenUpload(board: Board) returns (names: seq<string>)
    modifies board, board.imageSet
    ensures forall x :: x in old(board.imageSet) ==> x.board == null
    ensures board.Valid() && |board.imageSet| == 1
    ensures names == ["u4_d.jpg"]
  {
    board.ClearImages();
    board.AddImage("u4", "d.jpg");
    var dto, order := board.EntityToDto();
    names := dto.fileNames;
    var r := ImageOrder.ImageRecord("u4", "d.jpg", 0);
    assert BoardEntity.RecordsOf(board.history) == [r];
    assert names == ImageOrder.FormatAll([r]);
    UploadNames();
  }
}
