# Shopping-mall entities: stock ledger, image attachments and DTO projection

This project models the entity logic of a small e-commerce back end (an item
catalogue and a bulletin board, each with uploaded images). Three pieces of
that logic carry invariants:

- **Stock ledger** (`Item`): `removeStock(n)` deducts `n` unless the stock
  would go negative, in which case it raises OutOfStock carrying the current
  stock and changes nothing; `addStock(n)` adds with no bound; `updateItem`
  overwrites stock, name, price, detail and sale status with no validation.
- **Attachment lifecycle** (`Board`/`BoardImage`, `Item`/`ItemImg`): an owner
  holds a hash set of images. `addImage` creates an image whose `ord` is the
  current set size and whose back-reference is the owner. `clearImages`
  nulls every image's back-reference and then empties the set. Images do
  not override `equals`, so the set compares them by reference. The model
  uses a Dafny `set` of objects, which does the same.
- **Projection** (`entityToDto`): copy the scalar fields, sort the images by
  ascending `ord` (through `compareTo`, which is `this.ord - other.ord` in
  Java `int`), and map each image to `uuid + "_" + fileName`.

Modules:

- `Basics` (basics.dfy): `Option` for nullable values, and lemmas about
  repetition-free enumerations of a set.
- `ImageOrder` (image_order.dfy): the pure side. This covers `compareTo`
  with 32-bit wrap-around, the sort by ord, the formatting, and the
  theorems that the projection depends only on which images are held, not
  on the set's iteration order.
- `StockLedger` (stock_ledger.dfy): `removeStock`/`addStock` as functions
  on a stock level, with lemmas that relate several calls.
- `BoardEntity` (board.dfy): the `Board` and `BoardImage` classes.
- `ItemEntity` (item.dfy): the `Item` and `ItemImg` classes.
- `Scenarios` (scenarios.dfy): client methods proved from the contracts
  alone. These are: a stock run that empties the item, three uploads
  projected in upload order, projecting twice, and clearing then uploading
  again.

Each owner keeps a ghost `history` of its images in creation order. `Valid()`
says that `history` lists the image set without repetition, that the i-th
image has ord i, and that every image points back to the owner. Every
constructor and `AddImage`/`ClearImages` preserves or establishes it. From
`Valid()`, `EntityToDto` returns the images in creation order, whatever
order the hash set is walked in. That walk is modelled by choosing an
arbitrary remaining element (`:|`), and the order it produced is returned
as the ghost `order`.

Three facts about the code shape the model:
- Set membership is by reference: `BoardImage` has no `equals`, so two
  images with the same uuid are still two members of the set.
- Stock may be negative: `updateItem` stores any value. So `Valid()` says
  nothing about stock, and `Scenarios.NegativeStockThroughUpdate` shows a
  negative stock being stored.
- `ItemSellStatus` is not part of this model. The repository's test code
  uses `ItemSellStatus.SELL`, so the enum is modelled as `SELL | SOLD_OUT`.

## Model

| member | source | states |
|---|---|---|
| `ImageOrder.CompareTo` | src/main/java/com/javalab/boot/entity/BoardImage.java:34-36 | the result is a Java int, and it equals the exact difference of the ords whenever that difference fits in an int |
| `ImageOrder.CompareToSign` | src/main/java/com/javalab/boot/entity/BoardImage.java:34-36 | without overflow, compareTo is negative, zero or positive exactly when this ord is less than, equal to or greater than the other |
| `ImageOrder.CompareToAntisymmetric` | src/main/java/com/javalab/boot/entity/BoardImage.java:35 | without overflow in either direction, a.compareTo(b) == -b.compareTo(a) |
| `ImageOrder.NonNegativeOrdsDoNotOverflow` | src/main/java/com/javalab/boot/entity/BoardImage.java:35 | for non-negative int ords (set sizes), the subtraction cannot overflow, and compareTo(a, b) <= 0 exactly when a.ord <= b.ord. So sorting with compareTo is sorting by ord |
| `ImageOrder.CompareToWrapsAtIntMin` | src/main/java/com/javalab/boot/entity/BoardImage.java:35 | outside that range the subtraction wraps: an image with ord Integer.MIN_VALUE compares greater than one with ord 1 |
| `ImageOrder.Insert` | src/main/java/com/javalab/boot/entity/Board.java:96 | inserting into an ord-sorted sequence keeps it sorted and adds exactly that one image |
| `ImageOrder.SortByOrd` | src/main/java/com/javalab/boot/entity/Board.java:96 | the stream's `sorted()`: the result is ascending by ord and is a permutation of the input (same multiset, same length) |
| `ImageOrder.FileNames` | src/main/java/com/javalab/boot/entity/Board.java:95-99 | the fileNames list has one entry per image |
| `ImageOrder.SortedPermutationUnique` | src/main/java/com/javalab/boot/entity/Board.java:95-99 | when ord identifies an image, there is only one ord-sorted arrangement of a given collection of images |
| `ImageOrder.FileNamesOrderIndependent` | src/main/java/com/javalab/boot/entity/Board.java:95-99 | when ord identifies an image, any two iteration orders of the same images give the same fileNames |
| `ImageOrder.EnumerationsProjectAlike` | src/main/java/com/javalab/boot/entity/Board.java:95-99 | any two repetition-free walks of the same images, none sharing an ord, give the same fileNames |
| `ImageOrder.EnumerationProjectsInCreationOrder` | src/main/java/com/javalab/boot/entity/Board.java:95-99 | a repetition-free walk of the images that a creation-order list holds (the i-th has ord i) gives that list's `uuid_fileName` strings in creation order |
| `ImageOrder.FileNamesInAppendOrder` | src/main/java/com/javalab/boot/entity/Board.java:95-99 | if the images are some permutation of a list whose i-th entry has ord i, fileNames is that list's `uuid_fileName` strings in list order |
| `StockLedger.Withdraw` | src/main/java/com/javalab/boot/entity/Item.java:98-104 | deduction succeeds exactly when n <= stock. On success the new level is stock - n and is >= 0. On failure the OutOfStock error carries the current level |
| `StockLedger.Deposit` | src/main/java/com/javalab/boot/entity/Item.java:107-109 | addition never fails, and the new level minus n is the old level |
| `StockLedger.DepositThenWithdraw` | src/main/java/com/javalab/boot/entity/Item.java:98-109 | from any non-negative level, removing any amount just added (addStock accepts any int) succeeds and restores the previous level |
| `StockLedger.WithdrawTwice` | src/main/java/com/javalab/boot/entity/Item.java:98-104 | deducting m then n succeeds exactly when deducting m + n does, and both end at the same level |
| `StockLedger.StockStaysNonNegative` | src/main/java/com/javalab/boot/entity/Item.java:98-109 | from a non-negative level, every run of removeStock calls (any amount, refused ones leaving the level unchanged) and addStock calls of non-negative amounts ends at a non-negative level |
| `BoardEntity.BoardImage.constructor` | src/main/java/com/javalab/boot/entity/Board.java:66-71 | the builder sets uuid, fileName, ord and the board back-reference to the given values |
| `BoardEntity.BoardImage.CompareTo` | src/main/java/com/javalab/boot/entity/BoardImage.java:34-36 | for non-negative int ords, the sign of compareTo is the order of the two ords, in all three cases |
| `BoardEntity.BoardImage.ChangeBoard` | src/main/java/com/javalab/boot/entity/BoardImage.java:38-40 | sets the back-reference to the argument (null detaches it) and modifies nothing else; uuid, fileName and ord are unchanged |
| `BoardEntity.Board.constructor` | src/main/java/com/javalab/boot/entity/Board.java:55-62 | a new board has the given scalar fields, an empty image set, and satisfies the attachment invariant |
| `BoardEntity.Board.Change` | src/main/java/com/javalab/boot/entity/Board.java:33-36 | sets title and content only. bno, writer, the image set and the invariant are unchanged |
| `BoardEntity.Board.AddImage` | src/main/java/com/javalab/boot/entity/Board.java:65-73 | exactly one fresh image joins the set, so the size grows by one. It has the given uuid and fileName, ord equal to the old size, and a back-reference to this board. The invariant is preserved |
| `BoardEntity.Board.ClearImages` | src/main/java/com/javalab/boot/entity/Board.java:76-79 | every image that was in the set now has a null board and otherwise unchanged fields. The set is empty and the invariant holds |
| `BoardEntity.ProjectionOrderIndependent` | src/main/java/com/javalab/boot/entity/Board.java:95-99 | two walks of the same board images, none sharing an ord, give the same fileNames |
| `BoardEntity.ProjectionInCreationOrder` | src/main/java/com/javalab/boot/entity/Board.java:95-99 | for any repetition-free enumeration of a board's images whose i-th creation has ord i, sorting by ord and formatting gives the `uuid_fileName` strings in creation order |
| `BoardEntity.Board.EntityToDto` | src/main/java/com/javalab/boot/entity/Board.java:82-104 | copies bno, title, content, writer and the timestamps. fileNames is the sorted projection of some enumeration of the image set, with the same length as the set. On a valid board it is the `uuid_fileName` strings in creation order. Nothing is modified |
| `BoardEntity.Board.OrdsDense` | src/main/java/com/javalab/boot/entity/Board.java:70 | on a valid board the ords present are exactly 0 .. k-1 for k images, and no two images share an ord |
| `ItemEntity.ItemImg.constructor` | src/main/java/com/javalab/boot/entity/Item.java:81-87 | the builder sets uuid, fileName, item back-reference, repimgYn and ord to the given values |
| `ItemEntity.ItemImg.ChangeBoard` | src/main/java/com/javalab/boot/entity/Item.java:93 | sets the item back-reference (null detaches it) and modifies nothing else |
| `ItemEntity.Item.constructor` | src/main/java/com/javalab/boot/entity/Item.java:64-66 | a new item has the given scalar fields, an empty image set, and satisfies the attachment invariant |
| `ItemEntity.Item.UpdateItem` | src/main/java/com/javalab/boot/entity/Item.java:71-77 | overwrites exactly itemNm, price, stockNumber, itemDetail and itemSellStatus with the form's values, without validation. id and the images are unchanged |
| `ItemEntity.Item.RemoveStock` | src/main/java/com/javalab/boot/entity/Item.java:98-104 | if stock - n < 0, the outcome is OutOfStock(old stock) and the stock is unchanged. Otherwise the stock becomes old - n (which is >= 0) and the outcome reports it. This agrees with `StockLedger.Withdraw` |
| `ItemEntity.Item.AddStock` | src/main/java/com/javalab/boot/entity/Item.java:107-109 | the stock becomes old + n, with no rejection, and no other field changes |
| `ItemEntity.Item.AddImage` | src/main/java/com/javalab/boot/entity/Item.java:80-89 | exactly one fresh image joins the set. It has the given uuid, fileName and repimgYn, ord equal to the old size, and a back-reference to this item. The invariant is preserved |
| `ItemEntity.Item.ClearImages` | src/main/java/com/javalab/boot/entity/Item.java:92-95 | every image that was in the set now has a null item and otherwise unchanged fields. The set is empty and the invariant holds |
| `ItemEntity.ProjectionInCreationOrder` | src/main/java/com/javalab/boot/entity/Item.java:123-127 | for any repetition-free enumeration of an item's images whose i-th creation has ord i, sorting by ord and formatting gives the `uuid_fileName` strings in creation order |
| `ItemEntity.Item.EntityToDto` | src/main/java/com/javalab/boot/entity/Item.java:112-131 | copies id, itemNm, itemDetail, itemSellStatus, price and stockNumber. fileNames is the sorted projection of some enumeration of the image set, with the same length as the set. On a valid item it is the `uuid_fileName` strings in creation order. Nothing is modified |
| `ItemEntity.Item.OrdsDense` | src/main/java/com/javalab/boot/entity/Item.java:86 | on a valid item the ords present are exactly 0 .. k-1 for k images, and no two images share an ord |
| `Scenarios.DrainStock` | src/main/java/com/javalab/boot/entity/Item.java:98-104 | with stock 500, removeStock(500) succeeds and leaves 0. Then removeStock(1) fails with OutOfStock(0), and the stock stays 0 |
| `Scenarios.NegativeStockThroughUpdate` | src/main/java/com/javalab/boot/entity/Item.java:71-77 | updateItem stores a stock of -5 unchecked, and a following removeStock(0) fails with OutOfStock(-5) |
| `Scenarios.ThreeUploads` | src/main/java/com/javalab/boot/entity/Board.java:65-73 | three addImage calls on a fresh board give a valid board whose images, in creation order, have ords 0, 1, 2 |
| `Scenarios.UploadOrder` | src/main/java/com/javalab/boot/entity/Board.java:95-101 | after uploads u1/a.jpg, u2/b.jpg and u3/c.jpg, fileNames is exactly ["u1_a.jpg", "u2_b.jpg", "u3_c.jpg"] |
| `Scenarios.ProjectTwice` | src/main/java/com/javalab/boot/entity/Board.java:82-104 | projecting a board twice with no change in between gives the same fileNames, whatever order each walk takes, when no two images share an ord |
| `Scenarios.ClearThenUpload` | src/main/java/com/javalab/boot/entity/Board.java:76-79 | on any board, after clearImages every former image is detached. The next upload gets ord 0 and is the only file name |

## Left out

- Persistence semantics (cascade, orphan removal, lazy loading, batch
  fetching): deleting detached images is done by the persistence layer and
  is not code in this repository. The model stops at the "detached" state,
  where the back-reference is null.
- Audit timestamps (`regDate`, `modDate`) are set by a framework listener
  from the clock. Here they are opaque `Option<int>` values, copied by
  `Board.EntityToDto` and never set by any modelled operation.
- `ItemEntity.Item.RemoveStock`: stock is an unbounded integer; Java's 32-bit
  wrap-around of `stockNumber - n` is not modelled.
- `ItemEntity.Item.AddStock`: stock is an unbounded integer; Java's 32-bit
  wrap-around of `stockNumber + n` is not modelled.
- `StockLedger.Withdraw`: the same idealisation. Levels are mathematical
  integers.
- `ImageOrder.SortByOrd`: the sort is by the ord key. It coincides with
  sorting by `compareTo` for non-negative int ords, which are the only ords
  `addImage` produces (`ImageOrder.NonNegativeOrdsDoNotOverflow`). Java's
  behaviour when the comparator is inconsistent because of overflow (such
  ords can only be loaded, never created here) is not modelled. Neither is
  the stability of Java's sort, which matters only when ords repeat.
- `ord` is an unbounded integer: a set of more than 2^31 - 1 images is
  not modelled.
- `Scenarios.ProjectTwice`: requires that no two images share an ord. Java
  walks an unchanged hash set in the same order every time, so
  `entityToDto` gives the same list twice even when ords repeat. The model
  lets each walk choose its own order, so with repeated ords it cannot
  promise the same list.
- The OutOfStock exception is an error value that carries the stock level.
  Its message text is not modelled.
- Strings are never null. Java's rendering of a null uuid or fileName as
  "null" in the projection is not modelled.
- Lombok-generated getters, setters and `toString`, and the static
  `ModelMapper` field (it is unused), are not modelled.
- The HTTP controller, application bootstrap, and the repository
  search/paging test run against a live database. They are not modelled.
- `ItemImg` and `ItemSellStatus` are not part of this model as source.
  `ItemImg` is taken to mirror `BoardImage`: uuid, fileName, ord, an owner
  back-reference set through `changeBoard`, and a `repimgYn` string.
- Concurrent use of one entity instance is not modelled. Each operation runs
  to completion on its own.
