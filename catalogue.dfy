/**
 * The application database: one sequence of rows per table, in rowid order.
 * Every handler reads it and the state-changing ones reassign its fields.
 */
module Catalogue {
  import opened Models
  import opened Tables

  class Store {
    var apiKeys: seq<ApiKey>
    var manufacturers: seq<Manufacturer>
    var products: seq<Product>
    var options: seq<Options>
    var productOptions: seq<ProductOption>
    var orders: seq<Order>

    /** Every table with an integer primary key keeps its keys ascending, hence unique. */
    ghost predicate Valid()
      reads this
    {
      && Ascending(manufacturers, ManufacturerKey)
      && Ascending(products, ProductKey)
      && Ascending(options, OptionsKey)
      && Ascending(productOptions, ProductOptionKey)
      && Ascending(orders, OrderKey)
    }

    constructor (apiKeys: seq<ApiKey>, manufacturers: seq<Manufacturer>, products: seq<Product>,
                 options: seq<Options>, productOptions: seq<ProductOption>, orders: seq<Order>)
      requires Ascending(manufacturers, ManufacturerKey) && Ascending(products, ProductKey)
      requires Ascending(options, OptionsKey) && Ascending(productOptions, ProductOptionKey)
      requires Ascending(orders, OrderKey)
      ensures Valid()
      ensures this.apiKeys == apiKeys && this.manufacturers == manufacturers && this.products == products
      ensures this.options == options && this.productOptions == productOptions && this.orders == orders
    {
      this.apiKeys := apiKeys;
      this.manufacturers := manufacturers;
      this.products := products;
      this.options := options;
      this.productOptions := productOptions;
      this.orders := orders;
    }
  }
}
