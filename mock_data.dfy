/**
 * The read-only catalog: categories and medicines, with prices in integer
 * cents (5.99 is 599).
 */
module MockData {
  import opened Wrappers

  datatype Category = Category(id: string, name: string, imageUrl: string, dataAiHint: Option<string>, description: Option<string>)

  datatype Medicine = Medicine(
    id: string,
    name: string,
    category: string,
    price: int,
    description: string,
    imageUrl: string,
    stock: int,
    dataAiHint: Option<string>)

  /** `cat => cat.id === id` */
  function MatchesCategoryId(id: string): Category -> bool {
    (c: Category) => c.id == id
  }

  const CategoryImage := "https://placehold.co/300x200.png"
  const MedicineImage := "https://placehold.co/400x300.png"

  const MockCategories: seq<Category> := [
    Category("pain-relief", "Pain Relief", CategoryImage, Some("pills painkiller"), Some("Relieve various types of pain effectively.")),
    Category("cold-flu", "Cold & Flu", CategoryImage, Some("tissue sickness"), Some("Combat cold and flu symptoms quickly.")),
    Category("vitamins-supplements", "Vitamins & Supplements", CategoryImage, Some("vitamins bottle"), Some("Boost your health with essential nutrients.")),
    Category("digestive-health", "Digestive Health", CategoryImage, Some("stomach health"), Some("Support your digestive system.")),
    Category("skincare", "Skincare", CategoryImage, Some("cream lotion"), Some("Nourish and protect your skin.")),
    Category("first-aid", "First Aid", CategoryImage, Some("bandages kit"), Some("Essential supplies for minor injuries."))
  ]

  const MockMedicines: seq<Medicine> := [
    Medicine("1", "Paracetamol 500mg", "Pain Relief", 599, "Effective relief from pain and fever. Suitable for headaches, migraines, and body aches.", MedicineImage, 100, Some("tablet painkiller")),
    Medicine("2", "Ibuprofen 200mg", "Pain Relief", 749, "Reduces inflammation and pain. Helps with arthritis, menstrual cramps, and muscle soreness.", MedicineImage, 75, Some("capsule medicine")),
    Medicine("3", "Vitamin C 1000mg", "Vitamins & Supplements", 1299, "Boosts immune system and provides antioxidant support. Effervescent tablets for easy consumption.", MedicineImage, 120, Some("orange vitamin")),
    Medicine("4", "Antacid Tablets", "Digestive Health", 899, "Quick relief from heartburn, acid indigestion, and upset stomach. Chewable mint flavor.", MedicineImage, 90, Some("antacid stomach")),
    Medicine("5", "Cold & Flu Syrup", "Cold & Flu", 999, "Soothes cough, relieves nasal congestion, and reduces fever. Non-drowsy formula.", MedicineImage, 60, Some("syrup bottle")),
    Medicine("6", "Moisturizing Cream", "Skincare", 1500, "Hydrates and protects dry and sensitive skin. Fragrance-free and dermatologically tested.", MedicineImage, 50, Some("skin cream")),
    Medicine("7", "Aspirin 300mg", "Pain Relief", 650, "Relief from mild to moderate pain, fever, and inflammation. Enteric-coated tablets.", MedicineImage, 80, Some("aspirin pills")),
    Medicine("8", "Multivitamin Gummies", "Vitamins & Supplements", 1899, "Tasty and convenient way to get essential daily vitamins and minerals for adults.", MedicineImage, 110, Some("gummy vitamins")),
    Medicine("9", "Probiotic Capsules", "Digestive Health", 2250, "Supports a healthy gut microbiome and improves digestion. Contains 10 billion CFUs.", MedicineImage, 70, Some("probiotic pill")),
    Medicine("10", "Sunscreen SPF 50", "Skincare", 1275, "Broad-spectrum protection against UVA and UVB rays. Water-resistant formula.", MedicineImage, 85, Some("sunscreen bottle"))
  ]
}
