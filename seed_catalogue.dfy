/**
 * The six products the database is seeded with, and the shop's example
 * query over them: shoes priced from 100 to 200 dollars.
 */
module SeedCatalogue {
  import opened Wrappers
  import opened Tables
  import Seqs
  import Text
  import ProductRouter

  const Image := "/placeholder.svg?height=300&width=300"

  /** The seeded rows, with identifiers and creation times in insertion order. */
  function Seeded(): (r: seq<Product>)
    ensures |r| == 6
  {
    [ Product(1, "Classic White Sneakers", None, 8999, 12000, [Image], "Shoes", "Unisex",
              ["7", "8", "9", "10", "11"], ["White", "Black"], 4.5, 128, true, 1),
      Product(2, "Premium Denim Jacket", None, 15999, 19999, [Image], "Jackets", "Men",
              ["S", "M", "L", "XL"], ["Blue", "Black"], 4.8, 89, true, 2),
      Product(3, "Elegant Summer Dress", None, 7999, 9999, [Image], "Dresses", "Women",
              ["XS", "S", "M", "L"], ["Pink", "Blue", "White"], 4.6, 156, true, 3),
      Product(4, "Casual Cotton T-Shirt", None, 2499, 3499, [Image], "T-Shirts", "Unisex",
              ["XS", "S", "M", "L", "XL", "XXL"], ["White", "Black", "Gray", "Navy"], 4.3, 234, true, 4),
      Product(5, "Sport Running Shoes", None, 12999, 15999, [Image], "Shoes", "Unisex",
              ["6", "7", "8", "9", "10", "11", "12"], ["Black", "Red", "Blue"], 4.7, 98, true, 5),
      Product(6, "Leather Handbag", None, 19999, 24999, [Image], "Bags", "Women",
              ["One Size"], ["Brown", "Black", "Tan"], 4.9, 67, false, 6) ]
  }

  /** Category "Shoes" and bracket "100-200". */
  const ShoesQuery := ProductRouter.FilterInput(None, Some(["Shoes"]), None, None, Some("100-200"), None)

  /** The query keeps exactly the shoes priced from 100 to 200 dollars, both ends included. */
  lemma ShoesQuerySelects(p: Product)
    ensures ProductRouter.Selection(ShoesQuery)(p) <==> p.category == "Shoes" && 10000 <= p.price <= 20000
  {
    assert Text.NatToString(100) + "-" + Text.NatToString(200) == "100-200";
    ProductRouter.BracketBetween(p.price, 100, 200);
  }

  /** Of the seeded products, only the running shoes are shoes from 100 to 200 dollars. */
  lemma RunningShoesScenario()
    ensures Seqs.Filter(Seeded(), ProductRouter.Selection(ShoesQuery)) == [Seeded()[4]]
    ensures Seeded()[4].name == "Sport Running Shoes" && Seeded()[4].price == 12999
  {
    forall i | 0 <= i < 6 ensures ProductRouter.Selection(ShoesQuery)(Seeded()[i]) <==> i == 4 {
      SeededSelection(i);
    }
    Seqs.FilterExactlyOne(Seeded(), ProductRouter.Selection(ShoesQuery), 4);
  }

  lemma SeededSelection(i: nat)
    requires i < 6
    ensures ProductRouter.Selection(ShoesQuery)(Seeded()[i]) <==> i == 4
  {
    var p := Seeded()[i];
    ShoesQuerySelects(p);
    if i == 0 {
      assert p.price == 8999;
    } else if i == 4 {
      assert p.category == "Shoes" && p.price == 12999;
    } else {
      assert p.category != "Shoes";
    }
  }
}
